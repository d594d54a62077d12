/**
 * Release and fail drop the per-slice ledger entry and the node counter in two separate
 * critical sections. Here any number of callers may sit between the two halves while every
 * other section runs, and free capacity is still never overstated.
 */
module CacheInterleaving {
  import opened Sums
  import opened VRAMCaches
  import opened CacheConservation

  /** A caller between the halves: `bytes` already gone from the ledger, still in the counter of `node`. */
  datatype Free = Free(node: string, bytes: int)

  datatype Busy = Busy(cache: CacheState, pending: map<nat, Free>)

  datatype Section =
    | Whole(op: Op)
    | BeginRelease(caller: nat, uid: string, node: string)
    | BeginFail(caller: nat, uid: string, node: string)
    | Finish(caller: nat)
    | ForgetMark(uid: string)

  /** The operations of one critical section each. */
  predicate OneSection(op: Op) {
    !op.OpRelease? && !op.OpFail? && !op.OpForget?
  }

  function Perform(b: Busy, s: Section): Busy {
    match s
    case Whole(op) => b.(cache := Step(b.cache, op))
    case BeginRelease(t, u, n) =>
      if ReleaseActs(b.cache, u)
      then Busy(ReleaseBegin(b.cache, u), b.pending[t := Free(n, LedgerBytes(b.cache, u))])
      else b
    case BeginFail(t, u, n) =>
      if FailActs(b.cache, u) && LedgerBytes(b.cache, u) > 0
      then Busy(FailBegin(b.cache, u), b.pending[t := Free(n, LedgerBytes(b.cache, u))])
      else b.(cache := FailBegin(b.cache, u))
    case Finish(t) =>
      if t in b.pending
      then Busy(FreeAllocated(b.cache, b.pending[t].node, b.pending[t].bytes), b.pending - {t})
      else b
    case ForgetMark(u) => b.(cache := DropMark(b.cache, u))
  }

  ghost function FreeWeight(node: string): (nat, Free) -> int {
    (t: nat, f: Free) => if f.node == node then f.bytes else 0
  }

  ghost function InFlight(b: Busy, node: string): int {
    SumBy(b.pending, FreeWeight(node))
  }

  /** The allocated counter of every registered node covers its ledger and everything in flight. */
  ghost predicate Covered(b: Busy) {
    && Core(b.cache)
    && (forall t :: t in b.pending ==> b.pending[t].bytes >= 0)
    && (forall n :: n in b.cache.nodes ==> Slack(b.cache, n) >= InFlight(b, n))
  }

  /** Callers name the right registered node, and no node leaves between two halves. */
  predicate Orderly(b: Busy, s: Section) {
    match s
    case Whole(OpRemoveNode(n)) => forall t :: t in b.pending ==> b.pending[t].bytes == 0 || b.pending[t].node != n
    case Whole(op) => OneSection(op) && Guard(b.cache, op)
    case BeginRelease(t, u, n) => t !in b.pending && (u in b.cache.allocNode ==> b.cache.allocNode[u] == n)
    case BeginFail(t, u, n) => t !in b.pending && (u in b.cache.allocNode ==> b.cache.allocNode[u] == n)
    case _ => true
  }

  lemma InFlightAdd(b: Busy, t: nat, f: Free, n: string)
    requires t !in b.pending
    ensures InFlight(b.(pending := b.pending[t := f]), n) == InFlight(b, n) + if f.node == n then f.bytes else 0
  {
    SumInsert(b.pending, FreeWeight(n), t, f);
  }

  /** Sections that only add slack, or leave it alone, keep everything in flight covered. */
  lemma SlackSuffices(b: Busy, c': CacheState)
    requires Covered(b) && Core(c')
    requires forall n :: n in c'.nodes && n in b.cache.nodes ==> Slack(c', n) >= Slack(b.cache, n)
    requires forall n :: n in c'.nodes && n !in b.cache.nodes ==> InFlight(b, n) <= 0
    ensures Covered(b.(cache := c'))
  {
    hide Core;
    var b' := b.(cache := c');
    forall n | n in c'.nodes ensures Slack(c', n) >= InFlight(b', n) {
      CoreFactsOf(c', n);
      assert InFlight(b', n) == InFlight(b, n);
    }
  }

  lemma CoreFactsOf(c: CacheState, n: string)
    requires Core(c) && n in c.nodes
    ensures Slack(c, n) >= 0
  {
    CoreFacts(c, n);
  }

  /** Nothing is in flight for a node that is not registered. */
  ghost predicate Anchored(b: Busy) {
    forall t :: t in b.pending && b.pending[t].bytes > 0 ==> b.pending[t].node in b.cache.nodes
  }

  lemma NothingInFlight(b: Busy, n: string)
    requires forall t :: t in b.pending ==> b.pending[t].bytes == 0 || b.pending[t].node != n
    ensures InFlight(b, n) == 0
  {
    SumZero(b.pending, FreeWeight(n));
  }

  lemma WholeSectionCovered(b: Busy, op: Op)
    requires Covered(b) && Anchored(b) && OneSection(op) && Orderly(b, Whole(op))
    ensures Covered(Perform(b, Whole(op))) && Anchored(Perform(b, Whole(op)))
  {
    var c, c' := b.cache, Step(b.cache, op);
    OneSectionSlack(c, op);
    forall n | n in c'.nodes && n !in c.nodes ensures InFlight(b, n) <= 0 {
      NothingInFlight(b, n);
    }
    OneSectionNodes(c, op);
    hide Core, Slack, Step, InFlight;
    SlackSuffices(b, c');
  }

  lemma OneSectionNodes(c: CacheState, op: Op)
    requires OneSection(op) && Core(c)
    ensures forall n :: n in c.nodes && (op.OpRemoveNode? ==> n != op.node) ==> n in Step(c, op).nodes
  {
    hide Recalc, Core;
    match op
    case OpPromote(u, n, b) => if !MarkedReady(c, u) && n in c.nodes { PromoteFrame(c, u, n, b); hide Promote; }
    case OpReap(order) => ReapKeeps(c, order);
    case OpRollback(u) => DropHoldFrame(c, u, ""); hide Rollback;
    case OpReleaseConfirmed(u) => DropHoldFrame(c, u, ""); hide ReleaseConfirmed;
    case _ =>
  }

  lemma OneSectionSlack(c: CacheState, op: Op)
    requires Core(c) && OneSection(op) && Guard(c, op)
    ensures Core(Step(c, op))
    ensures forall n :: n in c.nodes && n in Step(c, op).nodes ==> Slack(Step(c, op), n) >= Slack(c, n)
  {
    LedgerPositive(c);
    hide Core, Slack;
    match op
    case OpAssume(u, ns, n, b, e) => AssumeKeeps(c, u, ns, n, b, e); hide Assume;
    case OpConfirm(u, ns, n, b, now) => ConfirmKeeps(c, u, ns, n, b, now); hide Confirm;
    case OpPromote(u, n, b) => PromoteKeeps(c, u, n, b); hide Promote;
    case OpRollback(u) => RollbackKeeps(c, u); hide Rollback;
    case OpReleaseConfirmed(u) => ReleaseConfirmedKeeps(c, u); hide ReleaseConfirmed;
    case OpPin(u, e) => PinKeeps(c, u, e);
    case OpReap(order) => ReapKeeps(c, order);
    case OpUpdateNode(n, t, a) => UpdateNodeKeeps(c, n, t, a);
    case OpRemoveNode(n) => RemoveNodeKeeps(c, n);
    case OpSetHealth(n, h) => SetHealthKeeps(c, n, h);
    case OpSetZone(n, z) => SetZoneKeeps(c, n, z);
  }

  /** The ledger half moves bytes from the ledger to the flight, and changes no counter. */
  lemma BeginCovered(b: Busy, t: nat, u: string, n: string, mark: Mark)
    requires Covered(b) && Anchored(b) && t !in b.pending && (u in b.cache.allocNode ==> b.cache.allocNode[u] == n)
    ensures var b' := Busy(DropLedger(b.cache, u, mark), b.pending[t := Free(n, LedgerBytes(b.cache, u))]);
            Covered(b') && Anchored(b')
  {
    hide SumBy;
    var c := b.cache;
    LedgerPositive(c);
    DropLedgerKeeps(c, u, mark);
    hide Core, Slack, InFlight;
    var b' := Busy(DropLedger(c, u, mark), b.pending[t := Free(n, LedgerBytes(c, u))]);
    forall m | m in c.nodes ensures Slack(b'.cache, m) >= InFlight(b', m) {
      InFlightAdd(b, t, Free(n, LedgerBytes(c, u)), m);
    }
  }

  /** Dropping a ledger entry that carries nothing. */
  lemma DropNothingCovered(b: Busy, u: string, mark: Mark)
    requires Covered(b) && Anchored(b) && LedgerBytes(b.cache, u) == 0
    ensures var b' := b.(cache := DropLedger(b.cache, u, mark)); Covered(b') && Anchored(b')
  {
    DropLedgerKeeps(b.cache, u, mark);
    hide Core, Slack, InFlight;
    SlackSuffices(b, DropLedger(b.cache, u, mark));
  }

  /** The counter half never clamps and never eats into another slice's bytes. */
  lemma FinishCovered(b: Busy, t: nat)
    requires Covered(b) && Anchored(b) && t in b.pending
    ensures Covered(Perform(b, Finish(t))) && Anchored(Perform(b, Finish(t)))
    ensures var f := b.pending[t]; f.node in b.cache.nodes ==> b.cache.nodes[f.node].granted >= f.bytes
  {
    var f, c := b.pending[t], b.cache;
    var b' := Perform(b, Finish(t));
    forall m ensures InFlight(b', m) == InFlight(b, m) - (if f.node == m then f.bytes else 0) && InFlight(b', m) >= 0 {
      SumRemove(b.pending, FreeWeight(m), t);
      SumNonNegative(b'.pending, FreeWeight(m));
    }
    hide Core, Slack, InFlight;
    FreeKeeps(c, f.node, f.bytes);
    FreeFrame(c, f.node, f.bytes);
    hide FreeAllocated;
  }

  /** Every section keeps the allocated counters covered. */
  lemma SectionKeepsCovered(b: Busy, s: Section)
    requires Covered(b) && Anchored(b) && Orderly(b, s)
    ensures Covered(Perform(b, s)) && Anchored(Perform(b, s))
  {
    LedgerPositive(b.cache);
    match s
    case Whole(op) => WholeSectionCovered(b, op); hide Covered, Anchored;
    case BeginRelease(t, u, n) => BeginCovered(b, t, u, n, MarkReleased); hide Covered, Anchored;
    case BeginFail(t, u, n) =>
      if LedgerBytes(b.cache, u) > 0 {
        BeginCovered(b, t, u, n, MarkFailed);
      } else {
        DropNothingCovered(b, u, MarkFailed);
      }
      hide Covered, Anchored;
    case Finish(t) => if t in b.pending { FinishCovered(b, t); } hide Covered, Anchored;
    case ForgetMark(u) =>
      DropMarkKeeps(b.cache, u);
      hide Core, Slack, InFlight;
      SlackSuffices(b, DropMark(b.cache, u));
  }

  function PerformAll(b: Busy, run: seq<Section>): Busy
    decreases |run|
  {
    if run == [] then b else PerformAll(Perform(b, run[0]), run[1..])
  }

  predicate OrderlyRun(b: Busy, run: seq<Section>)
    decreases |run|
  {
    run == [] || (Orderly(b, run[0]) && OrderlyRun(Perform(b, run[0]), run[1..]))
  }

  /** What a node offers as free is really free: neither held, nor in the ledger, nor still being given back. */
  ghost predicate HonestAt(b: Busy, n: string)
    requires n in b.cache.nodes
  {
    var c := b.cache;
    c.nodes[n].free
        <= Floor0(c.nodes[n].total - HoldSum(c.assumed, n) - HoldSum(c.confirmed, n) - LedgerSum(c, n) - InFlight(b, n))
  }

  ghost predicate Honest(b: Busy) {
    forall n :: n in b.cache.nodes ==> HonestAt(b, n)
  }

  lemma CoveredIsHonest(b: Busy)
    requires Covered(b)
    ensures Honest(b)
  {
    hide SumBy;
    forall n | n in b.cache.nodes ensures HonestAt(b, n) { assert NodeOk(b.cache, n); }
  }

  /** In every interleaving of critical sections free bytes are never overstated. */
  lemma {:induction false} FreeNeverOverstated(b: Busy, run: seq<Section>)
    requires Covered(b) && Anchored(b) && OrderlyRun(b, run)
    ensures Covered(PerformAll(b, run)) && Honest(PerformAll(b, run))
    decreases |run|
  {
    hide Covered, Honest, Perform, Orderly;
    if run == [] {
      CoveredIsHonest(b);
    } else {
      SectionKeepsCovered(b, run[0]);
      FreeNeverOverstated(Perform(b, run[0]), run[1..]);
    }
  }

  // ----- Removing a node with frees in flight -----

  /** The node comes back at `bytes`, a new slice fills it, and then the late half arrives. */
  function LateRun(n: string, bytes: Bytes, u: string, t: nat): seq<Section> {
    [Whole(OpUpdateNode(n, bytes, 0))] + ([Whole(OpPromote(u, n, bytes))] + [Finish(t)])
  }

  predicate Unused(c: CacheState, u: string) {
    u !in c.confirmed && u !in c.synced && u !in c.allocBytes && u !in c.allocNode
  }

  /** The returned node, filled: its counters carry the new slice and nothing else. */
  lemma RefilledNode(c: CacheState, n: string, bytes: Bytes, u: string)
    requires Core(c) && n !in c.nodes && Unused(c, u)
    ensures var c2 := Promote(UpdateNode(c, n, bytes, 0), u, n, bytes);
            && Core(c2) && n in c2.nodes && LedgerSum(c2, n) == bytes
                && HoldSum(c2.assumed, n) == HoldSum(c2.confirmed, n) == 0
            && c2.nodes[n].total == c2.nodes[n].granted == bytes && c2.nodes[n].reserved == 0
  {
    hide SumBy, SlackMoves;
    var c1 := UpdateNode(c, n, bytes, 0);
    UnregisteredIsEmpty(c, n);
    UpdateNodeKeeps(c, n, bytes, 0);
    PromoteFrame(c1, u, n, bytes);
    PromoteNodes(c1, u, n, bytes);
    PromoteKeeps(c1, u, n, bytes);
    PromotedCounters(c1, u, n, bytes);
    hide Core, NodeOk, Promote;
    assert c1.confirmed - {u} == c1.confirmed;
  }

  /** The late half then frees bytes the new slice occupies. */
  lemma LateFree(b: Busy, n: string, t: nat)
    requires Core(b.cache) && n in b.cache.nodes && t in b.pending && b.pending[t].node == n && b.pending[t].bytes > 0
    requires forall s :: s in b.pending ==> b.pending[s].bytes >= 0
    requires var node := b.cache.nodes[n];
        node.total == node.granted == LedgerSum(b.cache, n) == b.pending[t].bytes && node.reserved == 0
    requires HoldSum(b.cache.assumed, n) == HoldSum(b.cache.confirmed, n) == 0
    ensures !Honest(Perform(b, Finish(t)))
  {
    hide SumBy, Core;
    var b' := Perform(b, Finish(t));
    SumNonNegative(b'.pending, FreeWeight(n));
    assert b'.cache == b.cache.(nodes := b'.cache.nodes);
    assert !HonestAt(b', n);
  }

  lemma LateHalfOverstates(b: Busy, n: string, t: nat, u: string)
    requires Core(b.cache) && n !in b.cache.nodes && Unused(b.cache, u)
    requires t in b.pending && b.pending[t].node == n && b.pending[t].bytes > 0
    requires forall s :: s in b.pending ==> b.pending[s].bytes >= 0
    ensures var run := LateRun(n, b.pending[t].bytes, u, t); OrderlyRun(b, run) && !Honest(PerformAll(b, run))
  {
    hide Core, Honest, HoldSum, LedgerSum, Promote;
    var bytes := b.pending[t].bytes;
    var update, promote, finish := Whole(OpUpdateNode(n, bytes, 0)), Whole(OpPromote(u, n, bytes)), Finish(t);
    RefilledNode(b.cache, n, bytes, u);
    var b1 := Perform(b, update);
    var b2 := Perform(b1, promote);
    LateFree(b2, n, t);
    assert Orderly(b, update) && Orderly(b1, promote) && Orderly(b2, finish);
    hide Perform, Orderly, OrderlyRun, PerformAll;
    PerformOne(b, update, [promote] + [finish]);
    PerformOne(b1, promote, [finish]);
    PerformOne(b2, finish, []);
    NothingMore(Perform(b2, finish));
    assert [finish] + [] == [finish];
  }

  lemma NothingMore(b: Busy)
    ensures PerformAll(b, []) == b && OrderlyRun(b, [])
  {
  }

  lemma {:induction false} UnusedName(s: set<string>) returns (u: string)
    ensures forall v :: v in s ==> |v| < |u|
    decreases |s|
  {
    u := "x";
    if s != {} {
      var v :| v in s;
      u := UnusedName(s - {v});
      if |u| <= |v| { u := v + "x"; }
    }
  }

  predicate NothingPending(b: Busy, n: string) {
    forall t :: t in b.pending && b.pending[t].node == n ==> b.pending[t].bytes == 0
  }

  /** A node may leave without free bytes ever being overstated afterwards, if and only if nothing is in flight for
      it. */
  lemma RemovalExact(b: Busy, n: string)
    requires Covered(b) && Anchored(b) && n in b.cache.nodes
    ensures var gone := Perform(b, Whole(OpRemoveNode(n)));
            (forall run :: OrderlyRun(gone, run) ==> Honest(PerformAll(gone, run))) <==> NothingPending(b, n)
  {
    var gone := Perform(b, Whole(OpRemoveNode(n)));
    if NothingPending(b, n) {
      WholeSectionCovered(b, OpRemoveNode(n));
      hide Covered, Anchored, Honest;
      forall run | OrderlyRun(gone, run) ensures Honest(PerformAll(gone, run)) { FreeNeverOverstated(gone, run); }
    } else {
      var t :| t in b.pending && b.pending[t].node == n && b.pending[t].bytes != 0;
      RemoveNodeKeeps(b.cache, n);
      var c := gone.cache;
      var u := UnusedName(c.confirmed.Keys + c.synced.Keys + c.allocBytes.Keys + c.allocNode.Keys);
      hide Core, Honest;
      assert Unused(gone.cache, u);
      LateHalfOverstates(gone, n, t, u);
    }
  }

  // One node, filled by slice "old"; its release is caught between the halves.
  const FullNode := NodeState(10, 10, 0, 0, true, "")
  const Registered :=
      Busy(CacheState(map["n" := NodeState(10, 0, 0, 10, true, "")], map[], map[], map[], map[], map[]), map[])
  const HalfReleased :=
      Busy(CacheState(map["n" := FullNode], map[], map[], map["old" := MarkReleased], map[], map[]),
      map[0 := Free("n", 10)])
  const Returned :=
      Busy(CacheState(map["n" := NodeState(10, 0, 0, 10, true, "")], map[], map[], map["old" := MarkReleased], map[],
      map[]),
                         map[0 := Free("n", 10)])

  lemma HalfRelease(rest: seq<Section>)
    ensures PerformAll(Registered, [Whole(OpPromote("old", "n", 10)), BeginRelease(0, "old", "n")] + rest)
        == PerformAll(HalfReleased, rest)
  {
    var promote, begin := Whole(OpPromote("old", "n", 10)), BeginRelease(0, "old", "n");
    var b1 := Busy(CacheState(map["n" := FullNode], map[], map[], map["old" := MarkReady], map["old" := 10],
        map["old" := "n"]), map[]);
    assert Perform(Registered, promote) == b1;
    assert Perform(b1, begin) == HalfReleased;
    hide Perform;
    PerformOne(Registered, promote, [begin] + rest);
    PerformOne(b1, begin, rest);
    assert [promote, begin] + rest == [promote] + ([begin] + rest);
  }

  lemma NodeComesBack(rest: seq<Section>)
    ensures PerformAll(HalfReleased, [Whole(OpRemoveNode("n")), Whole(OpUpdateNode("n", 10, 0))] + rest)
        == PerformAll(Returned, rest)
  {
    var remove, update := Whole(OpRemoveNode("n")), Whole(OpUpdateNode("n", 10, 0));
    var b1 := HalfReleased.(cache := HalfReleased.cache.(nodes := map[]));
    assert Perform(HalfReleased, remove) == b1;
    assert Perform(b1, update) == Returned;
    hide Perform;
    PerformOne(HalfReleased, remove, [update] + rest);
    PerformOne(b1, update, rest);
    assert [remove, update] + rest == [remove] + ([update] + rest);
  }

  /** Removing a node between the halves is the one thing that breaks this: the late half is charged
      against the node's next incarnation, which then offers bytes a live slice occupies. */
  lemma RemovalBetweenHalvesOverstates()
    ensures var run := [Whole(OpPromote("old", "n", 10)), BeginRelease(0, "old", "n"), Whole(OpRemoveNode("n")),
                        Whole(OpUpdateNode("n", 10, 0)), Whole(OpPromote("new", "n", 10)), Finish(0)];
            var end := PerformAll(Registered, run).cache;
            end.nodes == map["n" := NodeState(10, 0, 0, 10, true, "")]
            && end.allocBytes == map["new" := 10] && end.allocNode == map["new" := "n"]
  {
    var promote, finish := Whole(OpPromote("new", "n", 10)), Finish(0);
    hide PerformAll, Perform;
    LateHalf();
    NodeComesBack([promote, finish]);
    HalfRelease([Whole(OpRemoveNode("n")), Whole(OpUpdateNode("n", 10, 0))] + [promote, finish]);
    var old_, begin := Whole(OpPromote("old", "n", 10)), BeginRelease(0, "old", "n");
    var remove, update := Whole(OpRemoveNode("n")), Whole(OpUpdateNode("n", 10, 0));
    assert [old_, begin] + ([remove, update] + [promote, finish]) == [old_, begin, remove, update, promote, finish];
  }

  /** The late half frees the bytes of the node's new slice. */
  lemma LateHalf()
    ensures var end := PerformAll(Returned, [Whole(OpPromote("new", "n", 10)), Finish(0)]).cache;
            end.nodes == map["n" := NodeState(10, 0, 0, 10, true, "")]
            && end.allocBytes == map["new" := 10] && end.allocNode == map["new" := "n"]
  {
    var promote, finish := Whole(OpPromote("new", "n", 10)), Finish(0);
    var b1 := Busy(CacheState(map["n" := FullNode], map[], map[], map["old" := MarkReleased, "new" := MarkReady],
                              map["new" := 10], map["new" := "n"]), map[0 := Free("n", 10)]);
    assert Perform(Returned, promote) == b1;
    assert Perform(b1, finish).cache.nodes == map["n" := NodeState(10, 0, 0, 10, true, "")];
    assert Perform(b1, finish).cache == b1.cache.(nodes := Perform(b1, finish).cache.nodes);
    hide Perform;
    PerformOne(Returned, promote, [finish]);
    PerformOne(b1, finish, []);
    assert [promote] + [finish] == [promote, finish] && [finish] + [] == [finish];
  }

  lemma PerformOne(b: Busy, s: Section, rest: seq<Section>)
    ensures PerformAll(b, [s] + rest) == PerformAll(Perform(b, s), rest)
    ensures OrderlyRun(b, [s] + rest) <==> Orderly(b, s) && OrderlyRun(Perform(b, s), rest)
  {
  }
}
