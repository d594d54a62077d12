/**
 * What the work queue does over every run: each request's own story, and equivalence with a list kept in
 * arrival order that is scanned for its highest priority.
 */
module WorkQueueTraces {
  import opened WorkQueues

  ghost predicate Accepted(m: Model, run: seq<Event>)
    decreases |run|
  {
    run == [] || (Enabled(m, run[0]) && Accepted(Step(m, run[0]), run[1..]))
  }

  function After(m: Model, run: seq<Event>): Model
    decreases |run|
  {
    if run == [] then m else After(Step(m, run[0]), run[1..])
  }

  // ----- The story of one request -----

  /** `adds`: every priority it was Added with since it was queued; `late`: every one since it was taken. */
  datatype Story = Idle | Waiting(adds: seq<int>) | Busy(late: seq<int>)

  function Continue(t: Story, r: string, e: Event, closed: bool): Story {
    match e
    case Added(q, p, _) =>
      if q != r || closed then t
      else
        (match t
         case Idle => Waiting([p])
         case Waiting(adds) => Waiting(adds + [p])
         case Busy(late) => Busy(late + [p]))
    case Took(q) => if q == r then Busy([]) else t
    case Finished(q, _) =>
      if q == r && t.Busy? then (if t.late == [] then Idle else Waiting([t.late[|t.late| - 1]])) else t
    case ShutDown => t
  }

  function StoryOf(run: seq<Event>, r: string): Story {
    if run == [] then Idle
    else Continue(StoryOf(run[..|run| - 1], r), r, run[|run| - 1], Event.ShutDown in run[..|run| - 1])
  }

  predicate IsMax(p: int, s: seq<int>) {
    p in s && forall q :: q in s ==> q <= p
  }

  /** The queue's three maps say about `r` what its story says. */
  predicate Tells(m: Model, r: string, t: Story) {
    match t
    case Idle => r !in m.waiting && r !in m.processing && r !in m.deferred
    case Waiting(adds) => r in m.waiting && IsMax(m.waiting[r].priority, adds) && r !in m.processing && r !in m.deferred
    case Busy(late) =>
      && r !in m.waiting && r in m.processing
      && (if late == [] then r !in m.deferred else r in m.deferred && m.deferred[r] == late[|late| - 1])
  }

  lemma TellsOn(m: Model, r: string, t: Story, e: Event)
    requires Separate(m) && Enabled(m, e) && Tells(m, r, t)
    ensures Tells(Step(m, e), r, Continue(t, r, e, m.closed))
  {
  }

  lemma {:induction false} AfterSnoc(m: Model, run: seq<Event>, e: Event)
    ensures After(m, run + [e]) == Step(After(m, run), e)
    ensures Accepted(m, run + [e]) <==> Accepted(m, run) && Enabled(After(m, run), e)
    decreases |run|
  {
    if run == [] {
      assert [e][1..] == [] && Accepted(Step(m, e), []);
    } else {
      assert (run + [e])[1..] == run[1..] + [e];
      AfterSnoc(Step(m, run[0]), run[1..], e);
    }
  }

  /** In every run every request is where its story says: never waiting and processing at once, a waiting request has
      the greatest priority Added since it was queued, and an Add while it is processed queues it again at Done, with
      the last priority so Added. */
  lemma {:induction false} EveryStoryIsTold(run: seq<Event>, r: string)
    requires Accepted(EmptyQueue, run)
    ensures Tells(After(EmptyQueue, run), r, StoryOf(run, r)) && Separate(After(EmptyQueue, run))
    ensures After(EmptyQueue, run).closed <==> Event.ShutDown in run
    decreases |run|
  {
    if run != [] {
      var front, e := run[..|run| - 1], run[|run| - 1];
      assert run == front + [e];
      AfterSnoc(EmptyQueue, front, e);
      EveryStoryIsTold(front, r);
      var m := After(EmptyQueue, front);
      TellsOn(m, r, StoryOf(front, r), e);
      StepKeepsSeparate(m, e);
    }
  }

  // ----- The list queue -----

  /** Waiting requests in arrival order. */
  datatype ListQueue = ListQueue(items: seq<Entry>, processing: set<string>, deferred: map<string, int>, closed: bool)

  const EmptyList := ListQueue([], {}, map[], false)

  /** The first of the highest priority. */
  function Pick(items: seq<Entry>): (k: nat)
    requires items != []
    ensures k < |items|
    ensures forall i ::
        0 <= i < |items| ==> items[i].priority <= items[k].priority && (i < k ==> items[i].priority < items[k].priority)
  {
    if |items| == 1 then 0
    else
      var n := |items| - 1;
      var k := Pick(items[..n]);
      assert forall i :: 0 <= i < n ==> items[..n][i] == items[i];
      if items[n].priority > items[k].priority then n else k
  }

  function Find(items: seq<Entry>, r: string): (k: nat)
    ensures k <= |items| && (k < |items| ==> items[k].request == r)
    ensures forall i :: 0 <= i < k ==> items[i].request != r
  {
    if items == [] || items[0].request == r then 0 else 1 + Find(items[1..], r)
  }

  function Removed(items: seq<Entry>, k: nat): (r: seq<Entry>)
    requires k < |items|
    ensures |r| == |items| - 1
    ensures forall i :: 0 <= i < |r| ==> r[i] == items[if i < k then i else i + 1]
  {
    items[..k] + items[k + 1..]
  }

  predicate ListEnabled(l: ListQueue, e: Event) {
    e.Took? ==> l.items != [] && l.items[Pick(l.items)].request == e.request
  }

  function ListStep(l: ListQueue, e: Event): ListQueue {
    match e
    case Added(r, p, now) =>
      var k := Find(l.items, r);
      if l.closed then l
      else if r in l.processing then l.(deferred := l.deferred[r := p])
      else if k < |l.items| then
        if p > l.items[k].priority then l.(items := l.items[k := l.items[k].(priority := p)]) else l
      else l.(items := l.items + [Entry(r, p, now)])
    case Took(r) =>
      var k := Find(l.items, r);
      l.(items := if k < |l.items| then Removed(l.items, k) else l.items, processing := l.processing + {r})
    case Finished(r, now) =>
      var l' := l.(processing := l.processing - {r});
      if r in l.deferred then l'.(deferred := l.deferred - {r}, items := l.items + [Entry(r, l.deferred[r], now)])
          else l'
    case ShutDown => l.(closed := true)
  }

  ghost predicate ListAccepted(l: ListQueue, run: seq<Event>)
    decreases |run|
  {
    run == [] || (ListEnabled(l, run[0]) && ListAccepted(ListStep(l, run[0]), run[1..]))
  }

  /** The clock does not go back. */
  predicate Steady(run: seq<Event>, clock: int)
    decreases |run|
  {
    run == [] ||
    (match run[0]
     case Added(_, _, now) => clock <= now && Steady(run[1..], now)
     case Finished(_, now) => clock <= now && Steady(run[1..], now)
     case _ => Steady(run[1..], clock))
  }

  /** The clock advances between two events that may queue something. */
  predicate Timely(run: seq<Event>, clock: int)
    decreases |run|
  {
    run == [] ||
    (match run[0]
     case Added(_, _, now) => clock < now && Timely(run[1..], now)
     case Finished(_, now) => clock < now && Timely(run[1..], now)
     case _ => Timely(run[1..], clock))
  }

  predicate Tie(a: Entry, b: Entry) {
    a.priority == b.priority && a.enqueued == b.enqueued
  }

  /** No other waiting request has the priority of `r` and was queued on the same reading. */
  predicate Untied(waiting: map<string, Entry>, r: string)
    requires r in waiting
  {
    forall q :: q in waiting && q != r ==> !Tie(waiting[q], waiting[r])
  }

  /** Whatever is taken is taken untied. */
  ghost predicate UntiedRun(m: Model, run: seq<Event>)
    decreases |run|
  {
    run == [] ||
    (Enabled(m, run[0]) ==>
        (run[0].Took? ==> Untied(m.waiting, run[0].request)) && UntiedRun(Step(m, run[0]), run[1..]))
  }

  function Clock(clock: int, e: Event): int {
    match e
    case Added(_, _, now) => now
    case Finished(_, now) => now
    case _ => clock
  }

  /** The list holds what the heap holds, in order of arrival. */
  predicate Mirrors(m: Model, l: ListQueue, clock: int) {
    && Separate(m) && l.processing == m.processing && l.deferred == m.deferred && l.closed == m.closed
    && Listed(m.waiting, l.items, clock)
  }

  predicate Listed(waiting: map<string, Entry>, items: seq<Entry>, clock: int) {
    && (forall i :: 0 <= i < |items| ==> items[i].request in waiting && waiting[items[i].request] == items[i])
    && (forall r :: r in waiting ==> exists i :: 0 <= i < |items| && items[i].request == r)
    && (forall i, j ::
        0 <= i < j < |items| ==> items[i].enqueued <= items[j].enqueued && items[i].request != items[j].request)
    && (forall i :: 0 <= i < |items| ==> items[i].enqueued <= clock)
  }

  /** The list's choice may come next, and nothing else may unless it ties with it. */
  lemma SamePick(waiting: map<string, Entry>, items: seq<Entry>, clock: int, r: string)
    requires Listed(waiting, items, clock)
    ensures items != [] && items[Pick(items)].request == r ==> Best(waiting, r)
    ensures Best(waiting, r) ==> items != [] && Tie(items[Pick(items)], waiting[r])
    ensures Best(waiting, r) && Untied(waiting, r) ==> items[Pick(items)].request == r
  {
    if items != [] {
      var k := Pick(items);
      var q := items[k].request;
      forall p | p in waiting ensures !Less(waiting[p], waiting[q]) {
        var i :| 0 <= i < |items| && items[i].request == p;
      }
      if Best(waiting, r) {
        assert !Less(waiting[q], waiting[r]) && !Less(waiting[r], waiting[q]);
        assert q in waiting;
      }
    }
  }

  lemma ListedAppend(waiting: map<string, Entry>, items: seq<Entry>, clock: int, e: Entry)
    requires Listed(waiting, items, clock) && e.request !in waiting && clock <= e.enqueued
    ensures Listed(waiting[e.request := e], items + [e], e.enqueued)
  {
    var w', s' := waiting[e.request := e], items + [e];
    forall r | r in w' ensures exists i :: 0 <= i < |s'| && s'[i].request == r {
      if r == e.request {
        assert s'[|items|].request == r;
      } else {
        var i :| 0 <= i < |items| && items[i].request == r;
        assert s'[i].request == r;
      }
    }
  }

  lemma ListedRaise(waiting: map<string, Entry>, items: seq<Entry>, clock: int, k: nat, priority: int)
    requires Listed(waiting, items, clock) && k < |items|
    ensures var e := items[k].(priority := priority); Listed(waiting[e.request := e], items[k := e], clock)
  {
    var e := items[k].(priority := priority);
    var w', s' := waiting[e.request := e], items[k := e];
    forall r | r in w' ensures exists i :: 0 <= i < |s'| && s'[i].request == r {
      var i :| 0 <= i < |items| && items[i].request == r;
      assert s'[i].request == r;
    }
    forall i | 0 <= i < |s'| ensures s'[i].request in w' && w'[s'[i].request] == s'[i] {
      if i != k { assert waiting[items[i].request] == items[i]; }
    }
  }

  lemma ListedRemove(waiting: map<string, Entry>, items: seq<Entry>, clock: int, k: nat)
    requires Listed(waiting, items, clock) && k < |items|
    ensures Listed(waiting - {items[k].request}, Removed(items, k), clock)
  {
    hide Removed;
    var w', s' := waiting - {items[k].request}, Removed(items, k);
    forall r | r in w' ensures exists i :: 0 <= i < |s'| && s'[i].request == r {
      StillListed(waiting, items, clock, k, r);
    }
    forall i | 0 <= i < |s'| ensures s'[i].request in w' && w'[s'[i].request] == s'[i] && s'[i].enqueued <= clock {
      OtherRequest(waiting, items, clock, if i < k then i else i + 1, k);
    }
    RemovedOrder(waiting, items, clock, k);
  }

  lemma StillListed(waiting: map<string, Entry>, items: seq<Entry>, clock: int, k: nat, r: string)
    requires Listed(waiting, items, clock) && k < |items| && r in waiting && r != items[k].request
    ensures exists i :: 0 <= i < |items| - 1 && Removed(items, k)[i].request == r
  {
    hide Removed;
    var i :| 0 <= i < |items| && items[i].request == r;
    assert Removed(items, k)[if i < k then i else i - 1].request == r;
  }

  lemma RemovedOrder(waiting: map<string, Entry>, items: seq<Entry>, clock: int, k: nat)
    requires Listed(waiting, items, clock) && k < |items|
    ensures var s' := Removed(items, k);
            forall i, j :: 0 <= i < j < |s'| ==> s'[i].enqueued <= s'[j].enqueued && s'[i].request != s'[j].request
  {
    hide Removed;
  }

  lemma OtherRequest(waiting: map<string, Entry>, items: seq<Entry>, clock: int, i: nat, k: nat)
    requires Listed(waiting, items, clock) && i < |items| && k < |items| && i != k
    ensures items[i].request != items[k].request && items[i].request in waiting && waiting[items[i].request] == items[i]
    ensures items[i].enqueued <= clock
  {
  }

  lemma FindsWaiting(waiting: map<string, Entry>, items: seq<Entry>, clock: int, r: string)
    requires Listed(waiting, items, clock)
    ensures Find(items, r) < |items| <==> r in waiting
    ensures r in waiting ==> waiting[r] == items[Find(items, r)]
  {
  }

  lemma MirrorsOn(m: Model, l: ListQueue, clock: int, e: Event)
    requires Mirrors(m, l, clock) && Enabled(m, e) && (e.Added? || e.Finished? ==> clock <= e.now)
    ensures Mirrors(Step(m, e), ListStep(l, e), Clock(clock, e))
  {
    StepKeepsSeparate(m, e);
    hide Listed, Best, Find, Removed;
    match e
    case Added(r, p, now) => hide Separate; AddMirrored(m, l, clock, r, p, now);
    case Took(r) =>
      BestWaits(m.waiting, r);
      FindsWaiting(m.waiting, l.items, clock, r);
      ListedRemove(m.waiting, l.items, clock, Find(l.items, r));
    case Finished(r, now) =>
      ListedLater(m.waiting, l.items, clock, now);
      if r in m.deferred { ListedAppend(m.waiting, l.items, clock, Entry(r, m.deferred[r], now)); }
    case ShutDown =>
  }

  lemma AddMirrored(m: Model, l: ListQueue, clock: int, r: string, p: int, now: int)
    requires Mirrors(m, l, clock) && clock <= now
    ensures var m', l' := Step(m, Added(r, p, now)), ListStep(l, Added(r, p, now));
            l'.processing == m'.processing && l'.deferred == m'.deferred && l'.closed == m'.closed
                && Listed(m'.waiting, l'.items, now)
  {
    hide Listed, Find, Separate;
    FindsWaiting(m.waiting, l.items, clock, r);
    ListedLater(m.waiting, l.items, clock, now);
    if r in m.waiting {
      ListedRaise(m.waiting, l.items, now, Find(l.items, r), p);
    } else {
      ListedAppend(m.waiting, l.items, clock, Entry(r, p, now));
    }
  }

  lemma BestWaits(waiting: map<string, Entry>, r: string)
    requires Best(waiting, r)
    ensures r in waiting
  {
  }

  lemma ListedLater(waiting: map<string, Entry>, items: seq<Entry>, clock: int, now: int)
    requires Listed(waiting, items, clock) && clock <= now
    ensures Listed(waiting, items, now)
  {
  }

  /** While nothing is taken on a tie, the heap queue and the list queue accept the same runs: the same requests, in the
      same order. */
  lemma {:induction false} HeapRefinesList(m: Model, l: ListQueue, clock: int, run: seq<Event>)
    requires Mirrors(m, l, clock) && Steady(run, clock) && UntiedRun(m, run)
    ensures Accepted(m, run) <==> ListAccepted(l, run)
    decreases |run|
  {
    if run != [] {
      var e := run[0];
      if e.Took? { SamePick(m.waiting, l.items, clock, e.request); }
      if Enabled(m, e) {
        MirrorsOn(m, l, clock, e);
        HeapRefinesList(Step(m, e), ListStep(l, e), Clock(clock, e), run[1..]);
      }
    }
  }

  /** Ties or not, every run of the list is a run the heap order admits. */
  lemma {:induction false} ListRunsAreHeapRuns(m: Model, l: ListQueue, clock: int, run: seq<Event>)
    requires Mirrors(m, l, clock) && Steady(run, clock) && ListAccepted(l, run)
    ensures Accepted(m, run)
    decreases |run|
  {
    if run != [] {
      var e := run[0];
      if e.Took? { SamePick(m.waiting, l.items, clock, e.request); }
      MirrorsOn(m, l, clock, e);
      ListRunsAreHeapRuns(Step(m, e), ListStep(l, e), Clock(clock, e), run[1..]);
    }
  }

  predicate DistinctReadings(waiting: map<string, Entry>, clock: int) {
    && (forall q :: q in waiting ==> waiting[q].enqueued <= clock)
    && (forall q, r :: q in waiting && r in waiting && q != r ==> waiting[q].enqueued != waiting[r].enqueued)
  }

  /** On an advancing clock nothing ever ties. */
  lemma {:induction false} TimelyIsUntied(m: Model, clock: int, run: seq<Event>)
    requires Separate(m) && DistinctReadings(m.waiting, clock) && Timely(run, clock)
    ensures UntiedRun(m, run) && Steady(run, clock)
    decreases |run|
  {
    if run != [] {
      var e := run[0];
      StillTimely(run, clock);
      if Enabled(m, e) {
        StepKeepsSeparate(m, e);
        TimelyIsUntied(Step(m, e), Clock(clock, e), run[1..]);
      }
    }
  }

  lemma {:induction false} StillTimely(run: seq<Event>, clock: int)
    requires Timely(run, clock)
    ensures Steady(run, clock)
    decreases |run|
  {
    if run != [] { StillTimely(run[1..], Clock(clock, run[0])); }
  }

  /** From empty queues, on an advancing clock. */
  lemma QueueIsPriorityThenArrival(run: seq<Event>, clock: int)
    requires Timely(run, clock)
    ensures Accepted(EmptyQueue, run) <==> ListAccepted(EmptyList, run)
  {
    TimelyIsUntied(EmptyQueue, clock, run);
    HeapRefinesList(EmptyQueue, EmptyList, clock, run);
  }

  /** Which requests may come next: exactly the ties. */
  lemma TiesExactly(waiting: map<string, Entry>, r: string, q: string)
    requires Best(waiting, r) && q in waiting
    ensures Best(waiting, q) <==> Tie(waiting[q], waiting[r])
  {
    if Best(waiting, q) { assert !Less(waiting[r], waiting[q]) && !Less(waiting[q], waiting[r]); }
  }

  // ----- Ties in the heap itself -----

  /** Two entries queued behind a third: taking the third moves the last leaf to the root, where only an entry that goes
      strictly before it can displace it. */
  lemma BehindThird(x: Entry, a: Entry, b: Entry)
    requires !Less(a, x) && !Less(b, x)
    ensures Pushed(Pushed(Pushed([], x), a), b) == [x, a, b]
    ensures Popped([x, a, b]) == if Less(a, b) then [a, b] else [b, a]
  {
    assert [] + [x] == [x] && [x] + [a] == [x, a] && [x, a] + [b] == [x, a, b];
    assert Swapped([x, a, b], 0, 2) == [b, a, x];
    assert [b, a, x][..2] == [b, a] && Swapped([b, a, x], 0, 1) == [a, b, x] && [a, b, x][..2] == [a, b];
  }

  /** The boundary of first come, first served for two requests of one priority, `a` queued before `b`: behind whatever
      goes first, `a` comes out before `b`, if and only if the clock advanced between them. */
  lemma FirstComeExactly(a: Entry, b: Entry)
    requires a.request != b.request && a.priority == b.priority && a.enqueued <= b.enqueued
    ensures (forall x :: !Less(a, x) && !Less(b, x) ==> Popped(Pushed(Pushed(Pushed([], x), a), b))[0] == a)
       <==> a.enqueued < b.enqueued
  {
    forall x | !Less(a, x) && !Less(b, x)
      ensures Popped(Pushed(Pushed(Pushed([], x), a), b))[0] == if a.enqueued < b.enqueued then a else b
    {
      BehindThird(x, a, b);
    }
    var tied := Entry("", a.priority, a.enqueued);
    assert !Less(a, tied) && !Less(b, tied);
    hide Popped, Pushed;
    assert Popped(Pushed(Pushed(Pushed([], tied), a), b))[0] == if a.enqueued < b.enqueued then a else b;
  }

  /** On the queue itself, with the two Adds behind an earlier one: the second of them is handed out first just when
      they fall on one clock reading. */
  method TwoBehindOne(x: string, a: string, b: string, priority: int, tx: int, ta: int, tb: int)
      returns (first: string, second: string)
    requires x != a && x != b && a != b && tx <= ta <= tb
    ensures first == x && second == if ta < tb then a else b
  {
    BehindThird(Entry(x, priority, tx), Entry(a, priority, ta), Entry(b, priority, tb));
    hide Pushed, Popped, Queue.Valid, Queue.View, Enabled;
    var q := new Queue();
    q.Add(x, priority, tx);
    q.Add(a, priority, ta);
    q.Add(b, priority, tb);
    var done;
    first, done := q.Get();
    second, done := q.Get();
  }

  /** Three Adds on one reading are such a case: the third request is handed out before the second. */
  method TiedArrivalsSwap(a: string, b: string, c: string, priority: int, now: int)
      returns (first: string, second: string)
    requires a != b && a != c && b != c
    ensures first == a && second == c
  {
    first, second := TwoBehindOne(a, b, c, priority, now, now, now);
  }

  lemma ListOne(l: ListQueue, e: Event, rest: seq<Event>)
    ensures ListAccepted(l, [e] + rest) ==> ListEnabled(l, e) && ListAccepted(ListStep(l, e), rest)
  {
  }

  lemma ThreeListed(x: Entry, a: Entry, b: Entry)
    requires x.request != a.request && x.request != b.request && a.request != b.request
    ensures ListStep(EmptyList, Added(x.request, x.priority, x.enqueued)) == EmptyList.(items := [x])
    ensures ListStep(EmptyList.(items := [x]), Added(a.request, a.priority, a.enqueued)) == EmptyList.(items := [x, a])
    ensures ListStep(EmptyList.(items := [x, a]), Added(b.request, b.priority, b.enqueued))
         == EmptyList.(items := [x, a, b])
  {
  }

  lemma SecondListed(x: Entry, y: Entry, z: Entry)
    requires x.request != y.request && y.request != z.request && y.priority >= z.priority
    ensures !ListEnabled(ListStep(EmptyList.(items := [x, y, z]), Took(x.request)), Took(z.request))
  {
    FirstTaken([x, y, z]);
    assert [x, y, z][1..] == [y, z];
    hide ListStep;
  }

  lemma FirstTaken(items: seq<Entry>)
    requires items != []
    ensures ListStep(EmptyList.(items := items), Took(items[0].request))
        == ListQueue(items[1..], {items[0].request}, map[], false)
  {
    assert Removed(items, 0) == items[1..];
  }

  /** The list queue never hands out the second of them first. */
  lemma ListRefusesTheSwap(x: string, a: string, b: string, priority: int, tx: int, ta: int, tb: int)
    requires x != a && x != b && a != b
    ensures !ListAccepted(EmptyList,
        [Added(x, priority, tx)] + ([Added(a, priority, ta)] + ([Added(b, priority, tb)] + ([Took(x)] + [Took(b)]))))
  {
    var ex, ea, eb := Entry(x, priority, tx), Entry(a, priority, ta), Entry(b, priority, tb);
    ThreeListed(ex, ea, eb);
    SecondListed(ex, ea, eb);
    hide ListAccepted, ListStep, ListEnabled;
    var e1, e2, e3 := Added(x, priority, tx), Added(a, priority, ta), Added(b, priority, tb);
    var e4, e5 := Took(x), Took(b);
    ListOne(EmptyList, e1, [e2] + ([e3] + ([e4] + [e5])));
    ListOne(EmptyList.(items := [ex]), e2, [e3] + ([e4] + [e5]));
    ListOne(EmptyList.(items := [ex, ea]), e3, [e4] + [e5]);
    ListOne(EmptyList.(items := [ex, ea, eb]), e4, [e5]);
    assert [e5] == [e5] + [];
    ListOne(ListStep(EmptyList.(items := [ex, ea, eb]), e4), e5, []);
  }

  /** A later, lower Add of a waiting request does not win: the higher priority stays. */
  lemma LatestPriorityDoesNotWin()
    ensures After(EmptyQueue, [Added("r", 100, 1), Added("r", 10, 2)]).waiting["r"].priority == 100
  {
    var run := [Added("r", 100, 1), Added("r", 10, 2)];
    assert run[1..] == [Added("r", 10, 2)];
    assert run[1..][1..] == [];
  }
}
