/**
 * Conservation of VRAM in the scheduler cache.
 * `Core` ties every node counter to the per-slice maps; `Books` adds the once-markers.
 * `StepExact` says exactly which calls keep the books balanced.
 */
module CacheConservation {
  import opened Sums
  import opened VRAMCaches

  type Bytes = b: int | b > 0 witness 1

  /** Every mutator of the cache. `order` is the iteration order of the reaper's map walk. */
  datatype Op =
    | OpAssume(uid: string, namespace: string, node: string, bytes: Bytes, expires: int)
    | OpConfirm(uid: string, namespace: string, node: string, bytes: Bytes, now: int)
    | OpPromote(uid: string, node: string, bytes: Bytes)
    | OpRelease(uid: string, node: string)
    | OpFail(uid: string, node: string)
    | OpForget(uid: string, node: string)
    | OpRollback(uid: string)
    | OpReleaseConfirmed(uid: string)
    | OpPin(uid: string, expires: int)
    | OpReap(order: seq<string>)
    | OpUpdateNode(node: string, total: int, reported: int)
    | OpRemoveNode(node: string)
    | OpSetHealth(node: string, healthy: bool)
    | OpSetZone(node: string, zone: string)

  function Step(c: CacheState, op: Op): CacheState {
    match op
    case OpAssume(u, ns, n, b, e) => Assume(c, u, ns, n, b, e)
    case OpConfirm(u, ns, n, b, now) => Confirm(c, u, ns, n, b, now)
    case OpPromote(u, n, b) => Promote(c, u, n, b)
    case OpRelease(u, n) => Release(c, u, n)
    case OpFail(u, n) => Fail(c, u, n)
    case OpForget(u, n) => Forget(c, u, n)
    case OpRollback(u) => Rollback(c, u)
    case OpReleaseConfirmed(u) => ReleaseConfirmed(c, u)
    case OpPin(u, e) => Pin(c, u, e)
    case OpReap(order) => RollbackAll(c, order)
    case OpUpdateNode(n, t, a) => UpdateNode(c, n, t, a)
    case OpRemoveNode(n) => RemoveNode(c, n)
    case OpSetHealth(n, h) => SetHealth(c, n, h)
    case OpSetZone(n, z) => SetZone(c, n, z)
  }

  // ----- What the counters should be -----

  ghost function HoldWeight(node: string): (string, Hold) -> int {
    (u: string, h: Hold) => if h.node == node then h.bytes else 0
  }

  ghost function HoldSum(holds: map<string, Hold>, node: string): int {
    SumBy(holds, HoldWeight(node))
  }

  ghost function LedgerWeight(nodeOf: map<string, string>, node: string): (string, int) -> int {
    (u: string, b: int) => if u in nodeOf && nodeOf[u] == node then b else 0
  }

  ghost function LedgerSum(c: CacheState, node: string): int {
    SumBy(c.allocBytes, LedgerWeight(c.allocNode, node))
  }

  /** Allocated bytes no ledger entry explains: consumption the node itself reported. */
  ghost function Slack(c: CacheState, node: string): int
    requires node in c.nodes
  {
    c.nodes[node].granted - LedgerSum(c, node)
  }

  ghost predicate NodeOk(c: CacheState, node: string)
    requires node in c.nodes
  {
    var n := c.nodes[node];
    && n.reserved == HoldSum(c.assumed, node) + HoldSum(c.confirmed, node)
    && Slack(c, node) >= 0
    && n == Recalc(n)
  }

  ghost predicate HoldsOk(c: CacheState, holds: map<string, Hold>) {
    forall u :: u in holds ==> holds[u].bytes > 0 && holds[u].node in c.nodes
  }

  ghost predicate Core(c: CacheState) {
    && c.assumed.Keys !! c.confirmed.Keys
    && HoldsOk(c, c.assumed)
    && HoldsOk(c, c.confirmed)
    && c.allocBytes.Keys == c.allocNode.Keys
    && (forall u :: u in c.allocBytes ==> c.allocBytes[u] > 0 && c.allocNode[u] in c.nodes)
    && (forall n :: n in c.nodes ==> NodeOk(c, n))
  }

  /** The once-markers agree with the ledger. */
  ghost predicate Marks(c: CacheState) {
    forall u :: u in c.allocBytes <==> MarkedReady(c, u)
  }

  ghost predicate Books(c: CacheState) {
    Core(c) && Marks(c)
  }

  // ----- Sums under single-entry changes -----

  lemma HoldSumSet(holds: map<string, Hold>, u: string, h: Hold, node: string)
    ensures HoldSum(holds[u := h], node)
         == HoldSum(holds, node) + (if h.node == node then h.bytes else 0)
            - (if u in holds && holds[u].node == node then holds[u].bytes else 0)
  {
    SumInsert(holds, HoldWeight(node), u, h);
  }

  lemma HoldSumDrop(holds: map<string, Hold>, u: string, node: string)
    requires u in holds
    ensures HoldSum(holds - {u}, node) == HoldSum(holds, node) - (if holds[u].node == node then holds[u].bytes else 0)
  {
    SumRemove(holds, HoldWeight(node), u);
  }

  lemma HoldSumBounds(holds: map<string, Hold>, node: string)
    requires forall u :: u in holds ==> holds[u].bytes > 0
    ensures HoldSum(holds, node) >= 0
    ensures forall u :: u in holds && holds[u].node == node ==> holds[u].bytes <= HoldSum(holds, node)
  {
    SumNonNegative(holds, HoldWeight(node));
    forall u | u in holds && holds[u].node == node ensures holds[u].bytes <= HoldSum(holds, node) {
      SumAtLeast(holds, HoldWeight(node), u);
    }
  }

  lemma LedgerSumBounds(c: CacheState, node: string)
    requires forall u :: u in c.allocBytes ==> c.allocBytes[u] > 0
    ensures LedgerSum(c, node) >= 0
    ensures forall u ::
        u in c.allocBytes && u in c.allocNode && c.allocNode[u] == node ==> c.allocBytes[u] <= LedgerSum(c, node)
  {
    var w := LedgerWeight(c.allocNode, node);
    SumNonNegative(c.allocBytes, w);
    forall u | u in c.allocBytes && u in c.allocNode
        && c.allocNode[u] == node ensures c.allocBytes[u] <= LedgerSum(c, node) {
      SumAtLeast(c.allocBytes, w, u);
    }
  }

  lemma LedgerSumSet(c: CacheState, c': CacheState, u: string, node: string, bytes: int, n: string)
    requires c'.allocBytes == c.allocBytes[u := bytes] && c'.allocNode == c.allocNode[u := node]
    requires c.allocBytes.Keys == c.allocNode.Keys
    ensures LedgerSum(c', n) == LedgerSum(c, n) + (if node == n then bytes else 0)
              - (if u in c.allocNode && c.allocNode[u] == n then c.allocBytes[u] else 0)
  {
    var w, w' := LedgerWeight(c.allocNode, n), LedgerWeight(c'.allocNode, n);
    SumRemove(c'.allocBytes, w', u);
    assert c'.allocBytes - {u} == c.allocBytes - {u};
    SumCongruent(c.allocBytes - {u}, w, c.allocBytes - {u}, w');
    if u in c.allocBytes {
      SumRemove(c.allocBytes, w, u);
    } else {
      assert c.allocBytes - {u} == c.allocBytes;
    }
  }

  lemma LedgerSumDrop(c: CacheState, c': CacheState, u: string, n: string)
    requires c'.allocBytes == c.allocBytes - {u} && c'.allocNode == c.allocNode - {u}
    requires c.allocBytes.Keys == c.allocNode.Keys
    ensures LedgerSum(c', n)
        == LedgerSum(c, n) - (if u in c.allocNode && c.allocNode[u] == n then c.allocBytes[u] else 0)
  {
    var w, w' := LedgerWeight(c.allocNode, n), LedgerWeight(c'.allocNode, n);
    SumCongruent(c.allocBytes - {u}, w, c'.allocBytes, w');
    if u in c.allocBytes {
      SumRemove(c.allocBytes, w, u);
    } else {
      assert c.allocBytes - {u} == c.allocBytes;
    }
  }

  lemma LedgerSumElsewhere(c: CacheState, c': CacheState, gone: set<string>, n: string)
    requires c'.allocBytes == c.allocBytes - gone && c'.allocNode == c.allocNode - gone
    requires forall u :: u in gone && u in c.allocNode ==> c.allocNode[u] != n
    ensures LedgerSum(c', n) == LedgerSum(c, n)
  {
    var w, w' := LedgerWeight(c.allocNode, n), LedgerWeight(c'.allocNode, n);
    SumDropZeros(c.allocBytes, w, gone);
    SumCongruent(c'.allocBytes, w, c'.allocBytes, w');
  }

  // ----- Each critical section keeps Core; slack moves only where stated -----

  /** Slack of every surviving node changes by `delta` on `at` and not at all elsewhere. */
  ghost predicate SlackMoves(c: CacheState, c': CacheState, at: string, delta: int) {
    forall n :: n in c.nodes && n in c'.nodes ==> Slack(c', n) == Slack(c, n) + (if n == at then delta else 0)
  }

  ghost predicate SlackKept(c: CacheState, c': CacheState) {
    forall n :: n in c.nodes && n in c'.nodes ==> Slack(c', n) == Slack(c, n)
  }

  ghost predicate Positive(holds: map<string, Hold>) {
    forall u :: u in holds ==> holds[u].bytes > 0
  }

  lemma CoreFacts(c: CacheState, n: string)
    requires Core(c) && n in c.nodes
    ensures Slack(c, n) >= 0 && c.nodes[n].granted >= Slack(c, n)
    ensures forall u :: u in c.allocNode && c.allocNode[u] == n ==> c.nodes[n].granted >= LedgerBytes(c, u)
  {
    hide SumBy;
    assert NodeOk(c, n);
    LedgerSumBounds(c, n);
  }

  lemma LedgerPositive(c: CacheState)
    requires Core(c)
    ensures c.allocBytes.Keys == c.allocNode.Keys && (forall u :: LedgerBytes(c, u) >= 0)
    ensures forall u :: u in c.allocNode ==> c.allocNode[u] in c.nodes
  {
    hide NodeOk;
  }

  lemma AssumeKeeps(c: CacheState, u: string, ns: string, node: string, b: Bytes, e: int)
    requires Core(c)
    ensures Core(Assume(c, u, ns, node, b, e)) && SlackKept(c, Assume(c, u, ns, node, b, e))
  {
    hide NodeOk, Slack, Recalc;
    var c' := Assume(c, u, ns, node, b, e);
    if AssumeVerdict(c, u, node, b) == Assumed {
      forall n | n in c.nodes ensures NodeOk(c', n) && Slack(c', n) == Slack(c, n) {
        assert NodeOk(c, n);
        ChargeAt(c, c', u, Hold(ns, node, b, e), n);
      }
    }
  }

  /** A new hold, assumed or re-armed, is charged to its node. */
  lemma ChargeAt(c: CacheState, c': CacheState, u: string, h: Hold, n: string)
    requires n in c.nodes && NodeOk(c, n) && u !in c.assumed && u !in c.confirmed
    requires c'.nodes == Reserve(c, h.node, h.bytes).nodes && c'.allocBytes == c.allocBytes
    requires c'.allocNode == c.allocNode
    requires (c'.assumed, c'.confirmed) == (c.assumed[u := h], c.confirmed)
          || (c'.assumed, c'.confirmed) == (c.assumed, c.confirmed[u := h])
    ensures n in c'.nodes && NodeOk(c', n) && Slack(c', n) == Slack(c, n)
  {
    hide SumBy;
    HoldSumSet(c.assumed, u, h, n);
    HoldSumSet(c.confirmed, u, h, n);
  }

  lemma ConfirmKeeps(c: CacheState, u: string, ns: string, node: string, b: Bytes, now: int)
    requires Core(c)
    requires u !in c.assumed ==> u !in c.confirmed && node in c.nodes
    ensures Core(Confirm(c, u, ns, node, b, now)) && SlackKept(c, Confirm(c, u, ns, node, b, now))
  {
    hide NodeOk, Slack, Recalc;
    var c' := Confirm(c, u, ns, node, b, now);
    forall n | n in c.nodes ensures NodeOk(c', n) && Slack(c', n) == Slack(c, n) {
      assert NodeOk(c, n);
      if u in c.assumed { MoveAt(c, c', u, n); } else { ChargeAt(c, c', u, Hold(ns, node, b, now), n); }
    }
  }

  lemma MoveAt(c: CacheState, c': CacheState, u: string, n: string)
    requires n in c.nodes && NodeOk(c, n) && u in c.assumed && u !in c.confirmed
    requires c' == c.(confirmed := c.confirmed[u := c.assumed[u]], assumed := c.assumed - {u})
    ensures NodeOk(c', n) && Slack(c', n) == Slack(c, n)
  {
    hide SumBy;
    HoldSumSet(c.confirmed, u, c.assumed[u], n);
    HoldSumDrop(c.assumed, u, n);
  }

  /** Dropping a hold gives back exactly its bytes. */
  lemma RollbackAt(c: CacheState, u: string, n: string)
    requires n in c.nodes && NodeOk(c, n) && Positive(c.assumed) && Positive(c.confirmed) && u in c.assumed
    ensures n in Rollback(c, u).nodes && NodeOk(Rollback(c, u), n) && Slack(Rollback(c, u), n) == Slack(c, n)
    ensures c.assumed[u].node == n ==> c.nodes[n].reserved >= c.assumed[u].bytes
  {
    hide SumBy;
    HoldSumDrop(c.assumed, u, n);
    HoldSumBounds(c.assumed, n);
    HoldSumBounds(c.confirmed, n);
  }

  lemma ReleaseConfirmedAt(c: CacheState, u: string, n: string)
    requires n in c.nodes && NodeOk(c, n) && Positive(c.assumed) && Positive(c.confirmed) && u in c.confirmed
    ensures n in ReleaseConfirmed(c, u).nodes && NodeOk(ReleaseConfirmed(c, u), n)
    ensures Slack(ReleaseConfirmed(c, u), n) == Slack(c, n)
    ensures c.confirmed[u].node == n ==> c.nodes[n].reserved >= c.confirmed[u].bytes
  {
    hide SumBy;
    HoldSumDrop(c.confirmed, u, n);
    HoldSumBounds(c.assumed, n);
    HoldSumBounds(c.confirmed, n);
  }

  lemma RollbackKeeps(c: CacheState, u: string)
    requires Core(c)
    ensures Core(Rollback(c, u)) && SlackKept(c, Rollback(c, u))
    ensures u in c.assumed ==> c.nodes[c.assumed[u].node].reserved >= c.assumed[u].bytes
  {
    hide NodeOk, Slack, Recalc;
    var c' := Rollback(c, u);
    if u in c.assumed {
      forall n | n in c.nodes
        ensures NodeOk(c', n) && Slack(c', n) == Slack(c, n)
        ensures n == c.assumed[u].node ==> c.nodes[n].reserved >= c.assumed[u].bytes
      {
        assert NodeOk(c, n);
        RollbackAt(c, u, n);
      }
    }
  }

  lemma ReleaseConfirmedKeeps(c: CacheState, u: string)
    requires Core(c)
    ensures Core(ReleaseConfirmed(c, u)) && SlackKept(c, ReleaseConfirmed(c, u))
    ensures u in c.confirmed ==> c.nodes[c.confirmed[u].node].reserved >= c.confirmed[u].bytes
  {
    hide NodeOk, Slack, Recalc;
    var c' := ReleaseConfirmed(c, u);
    if u in c.confirmed {
      forall n | n in c.nodes
        ensures NodeOk(c', n) && Slack(c', n) == Slack(c, n)
        ensures n == c.confirmed[u].node ==> c.nodes[n].reserved >= c.confirmed[u].bytes
      {
        assert NodeOk(c, n);
        ReleaseConfirmedAt(c, u, n);
      }
    }
  }

  /** The counter half of a promotion turns the hold, if any, into allocated bytes. */
  lemma PromoteLockedAt(c: CacheState, u: string, node: string, b: Bytes, n: string)
    requires n in c.nodes && NodeOk(c, n) && node in c.nodes && (u in c.confirmed ==> c.confirmed[u].node == node)
    requires Positive(c.assumed) && Positive(c.confirmed)
    ensures var c' := PromoteLocked(c, u, node, b);
            NodeOk(c', n) && Slack(c', n) == Slack(c, n) + if n == node then b else 0
    ensures n == node && u in c.confirmed ==> c.nodes[n].reserved >= c.confirmed[u].bytes
  {
    hide SumBy;
    if u in c.confirmed { HoldSumDrop(c.confirmed, u, n); }
    HoldSumBounds(c.assumed, n);
    HoldSumBounds(c.confirmed, n);
  }

  /** Recording in the ledger an allocation the counters already carry. */
  lemma RecordAt(c: CacheState, c': CacheState, u: string, node: string, b: Bytes, n: string)
    requires n in c.nodes && NodeOk(c, n) && (n == node ==> Slack(c, n) >= b)
    requires c.allocBytes.Keys == c.allocNode.Keys && (u in c.allocBytes ==> c.allocBytes[u] > 0)
    requires c' == c.(synced := c.synced[u := MarkReady], allocBytes := c.allocBytes[u := b],
        allocNode := c.allocNode[u := node])
    ensures NodeOk(c', n)
    ensures Slack(c', n) == Slack(c, n) - (if n == node then b else 0)
                            + (if u in c.allocNode && c.allocNode[u] == n then c.allocBytes[u] else 0)
  {
    hide SumBy;
    LedgerSumSet(c, c', u, node, b, n);
  }

  lemma PromoteFrame(c: CacheState, u: string, node: string, b: Bytes)
    requires !MarkedReady(c, u) && node in c.nodes
    ensures Promote(c, u, node, b)
         == c.(nodes := Promote(c, u, node, b).nodes, confirmed := c.confirmed - {u},
               synced := c.synced[u := MarkReady], allocBytes := c.allocBytes[u := b],
                   allocNode := c.allocNode[u := node])
    ensures Promote(c, u, node, b).nodes.Keys == c.nodes.Keys
  {
    hide Recalc;
    assert u !in c.confirmed ==> c.confirmed - {u} == c.confirmed;
  }

  lemma PromoteAt(c: CacheState, u: string, node: string, b: Bytes, n: string)
    requires Core(c) && n in c.nodes && !MarkedReady(c, u) && node in c.nodes
    requires (u in c.confirmed ==> c.confirmed[u].node == node)
    ensures var c' := Promote(c, u, node, b);
            && n in c'.nodes && NodeOk(c', n)
            && Slack(c', n) == Slack(c, n) + (if u in c.allocNode && c.allocNode[u] == n then c.allocBytes[u] else 0)
    ensures n == node && u in c.confirmed ==> c.nodes[n].reserved >= c.confirmed[u].bytes
  {
    CoreFacts(c, n);
    hide Recalc, Slack;
    assert NodeOk(c, n);
    hide NodeOk;
    PromoteLockedAt(c, u, node, b, n);
    RecordAt(PromoteLocked(c, u, node, b), Promote(c, u, node, b), u, node, b, n);
  }

  /** Promotion on the right registered node; re-promoting an already recorded slice only adds slack. */
  lemma PromoteKeeps(c: CacheState, u: string, node: string, b: Bytes)
    requires Core(c)
    requires MarkedReady(c, u) || (node in c.nodes && (u in c.confirmed ==> c.confirmed[u].node == node))
    ensures Core(Promote(c, u, node, b))
    ensures SlackMoves(c, Promote(c, u, node, b), if u in c.allocNode then c.allocNode[u] else node,
                       if u in c.allocNode && !MarkedReady(c, u) then LedgerBytes(c, u) else 0)
    ensures u in c.confirmed && !MarkedReady(c, u) ==> c.nodes[node].reserved >= c.confirmed[u].bytes
  {
    hide NodeOk, Slack, Promote;
    if !MarkedReady(c, u) {
      PromoteFrame(c, u, node, b);
      PromoteNodes(c, u, node, b);
    } else {
      PromoteAgain(c, u, node, b);
    }
  }

  lemma PromoteAgain(c: CacheState, u: string, node: string, b: Bytes)
    requires MarkedReady(c, u)
    ensures Promote(c, u, node, b) == c
  {
  }

  lemma PromoteNodes(c: CacheState, u: string, node: string, b: Bytes)
    requires Core(c) && !MarkedReady(c, u) && node in c.nodes && (u in c.confirmed ==> c.confirmed[u].node == node)
    ensures var c' := Promote(c, u, node, b);
            c'.nodes.Keys == c.nodes.Keys && c.allocNode.Keys == c.allocBytes.Keys
            && (forall n :: n in c.nodes ==>
                 NodeOk(c', n)
                 && Slack(c', n)
                     == Slack(c, n) + (if u in c.allocNode && c.allocNode[u] == n then c.allocBytes[u] else 0))
    ensures u in c.confirmed ==> c.nodes[node].reserved >= c.confirmed[u].bytes
  {
    LedgerPositive(c);
    hide Core, NodeOk, Slack;
    PromoteFrame(c, u, node, b);
    hide Promote;
    forall n | n in c.nodes
      ensures NodeOk(Promote(c, u, node, b), n)
      ensures Slack(Promote(c, u, node, b), n)
          == Slack(c, n) + (if u in c.allocNode && c.allocNode[u] == n then c.allocBytes[u] else 0)
    {
      PromoteAt(c, u, node, b, n);
    }
    PromoteAt(c, u, node, b, node);
  }

  lemma PromotedCounters(c: CacheState, u: string, node: string, b: Bytes)
    requires !MarkedReady(c, u) && node in c.nodes
    requires (u in c.confirmed ==> c.nodes[node].reserved >= c.confirmed[u].bytes)
    ensures var c' := Promote(c, u, node, b); var freed := if u in c.confirmed then c.confirmed[u].bytes else 0;
            && c'.nodes.Keys == c.nodes.Keys && c'.nodes[node].total == c.nodes[node].total
            && c'.nodes[node].reserved == c.nodes[node].reserved - freed
                && c'.nodes[node].granted == c.nodes[node].granted + b
            && (forall n :: n in c.nodes && n != node ==> c'.nodes[n] == c.nodes[n])
  {
  }

  lemma DropLedgerKeeps(c: CacheState, u: string, mark: Mark)
    requires Core(c)
    ensures Core(DropLedger(c, u, mark))
    ensures SlackMoves(c, DropLedger(c, u, mark), if u in c.allocNode then c.allocNode[u] else "", LedgerBytes(c, u))
  {
    hide SumBy, Recalc;
    var c' := DropLedger(c, u, mark);
    forall n | n in c.nodes
      ensures NodeOk(c', n)
      ensures Slack(c', n) == Slack(c, n) + if u in c.allocNode && c.allocNode[u] == n then LedgerBytes(c, u) else 0
    {
      LedgerSumDrop(c, c', u, n);
      assert NodeOk(c, n);
    }
  }

  /** The counter half of a release: when the slack covers it, it cannot clamp. */
  lemma FreeKeeps(c: CacheState, node: string, b: int)
    requires Core(c) && 0 <= b && (node in c.nodes ==> b <= Slack(c, node))
    ensures Core(FreeAllocated(c, node, b))
    ensures SlackMoves(c, FreeAllocated(c, node, b), node, -b)
    ensures node in c.nodes ==> c.nodes[node].granted >= b
  {
    hide SumBy;
    var c' := FreeAllocated(c, node, b);
    LedgerSumBounds(c, node);
    forall n | n in c.nodes ensures NodeOk(c', n) && Slack(c', n) == Slack(c, n) - if n == node then b else 0 {
      assert NodeOk(c, n);
    }
  }

  lemma UpdateNodeKeeps(c: CacheState, node: string, total: int, reported: int)
    requires Core(c)
    ensures var c' := UpdateNode(c, node, total, reported);
            Core(c') && (forall n ::
                n in c.nodes ==> Slack(c', n) >= Slack(c, n) && (n != node ==> Slack(c', n) == Slack(c, n)))
  {
    hide SumBy;
    var c' := UpdateNode(c, node, total, reported);
    forall n | n in c'.nodes
      ensures NodeOk(c', n)
      ensures n in c.nodes ==> Slack(c', n) >= Slack(c, n) && (n != node ==> Slack(c', n) == Slack(c, n))
    {
      if n in c.nodes { assert NodeOk(c, n); } else { UnregisteredIsEmpty(c, n); }
    }
  }

  lemma UnregisteredIsEmpty(c: CacheState, n: string)
    requires Core(c) && n !in c.nodes
    ensures HoldSum(c.assumed, n) == HoldSum(c.confirmed, n) == LedgerSum(c, n) == 0
  {
    hide SumBy, NodeOk;
    SumZero(c.assumed, HoldWeight(n));
    SumZero(c.confirmed, HoldWeight(n));
    SumZero(c.allocBytes, LedgerWeight(c.allocNode, n));
  }

  lemma SetZoneKeeps(c: CacheState, node: string, zone: string)
    requires Core(c)
    ensures Core(SetZone(c, node, zone)) && SlackKept(c, SetZone(c, node, zone))
  {
    hide SumBy;
    var c' := SetZone(c, node, zone);
    forall n | n in c'.nodes ensures NodeOk(c', n) && (n in c.nodes ==> Slack(c', n) == Slack(c, n)) {
      if n in c.nodes { assert NodeOk(c, n); } else { UnregisteredIsEmpty(c, n); }
    }
  }

  lemma SetHealthKeeps(c: CacheState, node: string, healthy: bool)
    requires Core(c)
    ensures Core(SetHealth(c, node, healthy)) && SlackKept(c, SetHealth(c, node, healthy))
  {
    hide SumBy;
    var c' := SetHealth(c, node, healthy);
    forall n | n in c'.nodes ensures NodeOk(c', n) && Slack(c', n) == Slack(c, n) {
      assert NodeOk(c, n);
    }
  }

  lemma PinKeeps(c: CacheState, u: string, e: int)
    requires Core(c)
    ensures Core(Pin(c, u, e)) && SlackKept(c, Pin(c, u, e))
  {
    hide SumBy, Recalc;
    var c' := Pin(c, u, e);
    forall n | n in c'.nodes ensures NodeOk(c', n) && Slack(c', n) == Slack(c, n) {
      if u in c.assumed { HoldSumSet(c.assumed, u, c.assumed[u].(expires := e), n); }
      assert NodeOk(c, n);
    }
  }

  lemma HoldSumElsewhere(holds: map<string, Hold>, node: string, n: string)
    requires n != node
    ensures HoldSum(holds - OnNode(holds, node), n) == HoldSum(holds, n)
  {
    SumDropZeros(holds, HoldWeight(n), OnNode(holds, node));
  }

  lemma RemoveNodeKeeps(c: CacheState, node: string)
    requires Core(c)
    ensures Core(RemoveNode(c, node)) && SlackKept(c, RemoveNode(c, node))
  {
    hide SumBy, Recalc;
    var c' := RemoveNode(c, node);
    if node in c.nodes {
      forall n | n in c'.nodes ensures NodeOk(c', n) && Slack(c', n) == Slack(c, n) {
        HoldSumElsewhere(c.assumed, node, n);
        HoldSumElsewhere(c.confirmed, node, n);
        LedgerSumElsewhere(c, c', LedgerOnNode(c, node), n);
        assert NodeOk(c, n);
      }
    }
  }

  lemma {:induction false} ReapKeeps(c: CacheState, order: seq<string>)
    requires Core(c)
    ensures var c' := RollbackAll(c, order); Core(c') && SlackKept(c, c')
    ensures RollbackAll(c, order).nodes.Keys == c.nodes.Keys
    decreases |order|
  {
    hide Core, Slack, Recalc;
    if order != [] {
      var rest, last := order[..|order| - 1], order[|order| - 1];
      ReapKeeps(c, rest);
      RollbackKeeps(RollbackAll(c, rest), last);
    }
  }

  /** Rolling back touches only the named holds: the confirmed holds, markers and ledger stay. */
  lemma {:induction false} ReapFrame(c: CacheState, order: seq<string>)
    ensures var c' := RollbackAll(c, order);
            c'.assumed == c.assumed - (set u | u in order) && c'.confirmed == c.confirmed
            && c'.synced == c.synced && c'.allocBytes == c.allocBytes && c'.allocNode == c.allocNode
    decreases |order|
  {
    if order == [] {
      assert c.assumed - (set u | u in order) == c.assumed;
    } else {
      ReapFrame(c, order[..|order| - 1]);
      assert order == order[..|order| - 1] + [order[|order| - 1]];
    }
  }

  // ----- Exactly the calls that conserve -----

  /** What a caller must check before the call. */
  predicate Guard(c: CacheState, op: Op) {
    match op
    case OpConfirm(u, _, n, _, _) => u in c.assumed || (u !in c.confirmed && n in c.nodes)
    case OpPromote(u, n, _) => MarkedReady(c, u) || (n in c.nodes && (u in c.confirmed ==> c.confirmed[u].node == n))
    case OpRelease(u, n) => u in c.allocNode ==> c.allocNode[u] == n
    case OpFail(u, n) => u in c.allocNode ==> c.allocNode[u] == n
    case OpForget(u, n) => u in c.allocNode ==> c.allocNode[u] == n && n != ""
    case _ => true
  }

  /** No surviving node gains or loses unexplained bytes; only a node's own report may raise them. */
  ghost predicate Conserves(c: CacheState, op: Op) {
    var c' := Step(c, op);
    forall n :: n in c.nodes && n in c'.nodes ==>
      if op.OpUpdateNode? && op.node == n then Slack(c', n) >= Slack(c, n) else Slack(c', n) == Slack(c, n)
  }

  /** The raw subtractions of the step: none of them goes below zero. */
  ghost predicate NoClamp(c: CacheState, op: Op)
    requires Core(c)
  {
    match op
    case OpRollback(u) => RollbackExact(c, u)
    case OpReleaseConfirmed(u) => ReleaseConfirmedExact(c, u)
    case OpPromote(u, n, _) =>
      !MarkedReady(c, u) && u in c.confirmed && n in c.nodes ==> c.nodes[n].reserved >= c.confirmed[u].bytes
    case OpRelease(u, n) => n in c.nodes ==> c.nodes[n].granted >= LedgerBytes(c, u)
    case OpFail(u, n) => (n in c.nodes ==> c.nodes[n].granted >= LedgerBytes(c, u)) && ReleaseConfirmedExact(c, u)
    case OpForget(u, n) =>
      RollbackExact(c, u) && ReleaseConfirmedExact(c, u) && (n in c.nodes ==> c.nodes[n].granted >= LedgerBytes(c, u))
    case OpReap(order) => forall i :: 0 <= i < |order| ==>
      Core(RollbackAll(c, order[..i])) && RollbackExact(RollbackAll(c, order[..i]), order[i])
    case _ => true
  }

  predicate RollbackExact(c: CacheState, u: string) {
    u in c.assumed && c.assumed[u].node in c.nodes ==> c.nodes[c.assumed[u].node].reserved >= c.assumed[u].bytes
  }

  predicate ReleaseConfirmedExact(c: CacheState, u: string) {
    u in c.confirmed && c.confirmed[u].node in c.nodes ==> c.nodes[c.confirmed[u].node].reserved >= c.confirmed[u].bytes
  }

  lemma ReleaseKeeps(c: CacheState, u: string, n: string)
    requires Core(c) && (u in c.allocNode ==> c.allocNode[u] == n) && c.allocBytes.Keys == c.allocNode.Keys
    requires 0 <= LedgerBytes(c, u)
    ensures Core(Release(c, u, n)) && SlackKept(c, Release(c, u, n))
    ensures n in c.nodes ==> c.nodes[n].granted >= LedgerBytes(c, u)
  {
    hide Core, Slack, Recalc;
    if n in c.nodes { CoreFacts(c, n); }
    if ReleaseActs(c, u) {
      DropLedgerKeeps(c, u, MarkReleased);
      FreeKeeps(ReleaseBegin(c, u), n, LedgerBytes(c, u));
    }
  }

  lemma FailKeeps(c: CacheState, u: string, n: string)
    requires Core(c) && (u in c.allocNode ==> c.allocNode[u] == n) && c.allocBytes.Keys == c.allocNode.Keys
    requires 0 <= LedgerBytes(c, u)
    ensures Core(Fail(c, u, n)) && SlackKept(c, Fail(c, u, n))
    ensures n in c.nodes ==> c.nodes[n].granted >= LedgerBytes(c, u)
  {
    hide Core, Slack, Recalc;
    if n in c.nodes { CoreFacts(c, n); }
    if FailActs(c, u) {
      DropLedgerKeeps(c, u, MarkFailed);
      var c1 := FailBegin(c, u);
      FreeKeeps(c1, n, LedgerBytes(c, u));
      ReleaseConfirmedKeeps(if LedgerBytes(c, u) > 0 then FreeAllocated(c1, n, LedgerBytes(c, u)) else c1, u);
    }
  }

  lemma DropMarkKeeps(c: CacheState, u: string)
    requires Core(c)
    ensures Core(DropMark(c, u)) && SlackKept(c, DropMark(c, u))
  {
    hide SumBy, Recalc;
    forall n | n in c.nodes ensures NodeOk(DropMark(c, u), n) && Slack(DropMark(c, u), n) == Slack(c, n) {
      assert NodeOk(c, n);
    }
  }

  /** Same nodes, same totals, and the same allocated bytes everywhere but at `at`. */
  ghost predicate NodesLike(c: CacheState, c': CacheState, at: string) {
    && c'.nodes.Keys == c.nodes.Keys
    && (forall m :: m in c.nodes ==> c'.nodes[m].total == c.nodes[m].total)
    && (forall m :: m in c.nodes && m != at ==> c'.nodes[m].granted == c.nodes[m].granted)
  }

  /** What rolling back or releasing a hold leaves alone. */
  lemma DropHoldFrame(c: CacheState, u: string, at: string)
    ensures var c' := Rollback(c, u); c' == c.(nodes := c'.nodes, assumed := c.assumed - {u}) && NodesLike(c, c', at)
    ensures var c' := ReleaseConfirmed(c, u);
        c' == c.(nodes := c'.nodes, confirmed := c.confirmed - {u}) && NodesLike(c, c', at)
  {
    assert u !in c.assumed ==> c.assumed - {u} == c.assumed;
    assert u !in c.confirmed ==> c.confirmed - {u} == c.confirmed;
  }

  lemma FreeFrame(c: CacheState, n: string, b: int)
    ensures var c' := FreeAllocated(c, n, b); c' == c.(nodes := c'.nodes) && NodesLike(c, c', n)
  {
  }

  /** What a release leaves of the ledger and the markers. */
  lemma ReleaseFrame(c: CacheState, u: string, n: string)
    ensures var c' := Release(c, u, n);
            NodesLike(c, c', n)
                && c' == (if ReleaseActs(c, u) then DropLedger(c, u, MarkReleased) else c).(nodes := c'.nodes)
  {
    FreeFrame(ReleaseBegin(c, u), n, LedgerBytes(c, u));
    hide FreeAllocated;
  }

  lemma FailFrame(c: CacheState, u: string, n: string)
    ensures var c' := Fail(c, u, n);
            NodesLike(c, c', n)
            && c' == if FailActs(c, u)
                     then DropLedger(c, u, MarkFailed).(nodes := c'.nodes, confirmed := c.confirmed - {u})
                     else c
  {
    var c1 := FailBegin(c, u);
    var c2 := FreeAllocated(c1, n, LedgerBytes(c, u));
    FreeFrame(c1, n, LedgerBytes(c, u));
    DropHoldFrame(c1, u, n);
    DropHoldFrame(c2, u, n);
    hide ReleaseConfirmed, FreeAllocated;
  }

  lemma DropBothFrame(c: CacheState, u: string, at: string)
    ensures var c2 := ReleaseConfirmed(Rollback(c, u), u);
            NodesLike(c, c2, at)
                && c2 == c.(nodes := c2.nodes, assumed := c.assumed - {u}, confirmed := c.confirmed - {u})
  {
    DropHoldFrame(c, u, at);
    DropHoldFrame(Rollback(c, u), u, at);
    hide Rollback, ReleaseConfirmed;
  }

  lemma ForgetFrame(c: CacheState, u: string, n: string)
    ensures var c' := Forget(c, u, n);
            && NodesLike(c, c', n)
            && c'.synced == c.synced - {u} && c'.assumed == c.assumed - {u} && c'.confirmed == c.confirmed - {u}
            && (var l := if n != "" && ReleaseActs(c, u) then DropLedger(c, u, MarkReleased) else c;
                c'.allocBytes == l.allocBytes && c'.allocNode == l.allocNode)
  {
    DropBothFrame(c, u, n);
    ReleaseFrame(ReleaseConfirmed(Rollback(c, u), u), u, n);
    hide Rollback, ReleaseConfirmed, Release;
  }

  lemma ForgetKeeps(c: CacheState, u: string, n: string)
    requires Core(c) && (u in c.allocNode ==> c.allocNode[u] == n) && c.allocBytes.Keys == c.allocNode.Keys
    requires 0 <= LedgerBytes(c, u)
    ensures Core(Forget(c, u, n)) && SlackKept(c, Forget(c, u, n))
    ensures n in c.nodes ==> c.nodes[n].granted >= LedgerBytes(c, u)
  {
    hide Core, Slack;
    if n in c.nodes { CoreFacts(c, n); }
    RollbackKeeps(c, u);
    ReleaseConfirmedKeeps(Rollback(c, u), u);
    DropBothFrame(c, u, n);
    var c2 := ReleaseConfirmed(Rollback(c, u), u);
    ReleaseFrame(c2, u, n);
    hide Rollback, ReleaseConfirmed, Release, DropMark;
    ReleaseKeeps(c2, u, n);
    DropMarkKeeps(if n != "" then Release(c2, u, n) else c2, u);
  }

  lemma ReapExact(c: CacheState, order: seq<string>)
    requires Core(c)
    ensures NoClamp(c, OpReap(order))
  {
    hide Core, Slack, Recalc;
    forall i | 0 <= i < |order|
      ensures Core(RollbackAll(c, order[..i])) && RollbackExact(RollbackAll(c, order[..i]), order[i])
    {
      ReapKeeps(c, order[..i]);
      RollbackKeeps(RollbackAll(c, order[..i]), order[i]);
    }
  }

  lemma ReleaseMarks(c: CacheState, u: string, n: string)
    requires Marks(c)
    ensures Marks(Release(c, u, n)) && Marks(Fail(c, u, n))
    ensures n != "" || u !in c.allocBytes ==> Marks(Forget(c, u, n))
  {
    ReleaseFrame(c, u, n);
    FailFrame(c, u, n);
    ForgetFrame(c, u, n);
    hide Release, Fail, Forget, Rollback, ReleaseConfirmed;
  }

  lemma GuardedStepMarks(c: CacheState, op: Op)
    requires Books(c) && Guard(c, op)
    ensures Marks(Step(c, op))
  {
    LedgerPositive(c);
    hide Core, Recalc;
    match op
    case OpRelease(u, n) => ReleaseMarks(c, u, n); hide Release, Marks;
    case OpFail(u, n) => ReleaseMarks(c, u, n); hide Fail, Marks;
    case OpForget(u, n) => ReleaseMarks(c, u, n); hide Forget, Marks;
    case OpReap(order) => ReapFrame(c, order); hide RollbackAll;
    case OpRollback(u) => DropHoldFrame(c, u, ""); hide Rollback;
    case OpReleaseConfirmed(u) => DropHoldFrame(c, u, ""); hide ReleaseConfirmed;
    case OpRemoveNode(n) => RemoveNodeMarks(c, n); hide RemoveNode, Marks;
    case _ => ChargingStepMarks(c, op); hide Marks;
  }

  lemma ChargingStepMarks(c: CacheState, op: Op)
    requires Marks(c)
    requires op.OpAssume? || op.OpConfirm? || op.OpPromote? || op.OpPin? || op.OpUpdateNode? || op.OpSetHealth?
        || op.OpSetZone?
    ensures Marks(Step(c, op))
  {
    hide Recalc, Release, Fail, Forget, Rollback, ReleaseConfirmed, RemoveNode;
  }

  lemma RemoveNodeMarks(c: CacheState, n: string)
    requires Marks(c) && c.allocBytes.Keys == c.allocNode.Keys
    ensures Marks(RemoveNode(c, n))
  {
  }

  lemma GuardedStepCore(c: CacheState, op: Op)
    requires Books(c) && Guard(c, op)
    ensures Core(Step(c, op)) && Conserves(c, op)
  {
    LedgerPositive(c);
    hide Core, Slack;
    match op
    case OpAssume(u, ns, n, b, e) => AssumeKeeps(c, u, ns, n, b, e); hide Assume;
    case OpConfirm(u, ns, n, b, now) => ConfirmKeeps(c, u, ns, n, b, now); hide Confirm;
    case OpPromote(u, n, b) => PromoteKeeps(c, u, n, b); hide Promote;
    case OpRelease(u, n) => ReleaseKeeps(c, u, n); hide Release;
    case OpFail(u, n) => FailKeeps(c, u, n); hide Fail;
    case OpForget(u, n) => ForgetKeeps(c, u, n); hide Forget;
    case OpRollback(u) => RollbackKeeps(c, u); hide Rollback;
    case OpReleaseConfirmed(u) => ReleaseConfirmedKeeps(c, u); hide ReleaseConfirmed;
    case OpPin(u, e) => PinKeeps(c, u, e);
    case OpReap(order) => ReapKeeps(c, order);
    case OpUpdateNode(n, t, a) => UpdateNodeKeeps(c, n, t, a);
    case OpRemoveNode(n) => RemoveNodeKeeps(c, n);
    case OpSetHealth(n, h) => SetHealthKeeps(c, n, h);
    case OpSetZone(n, z) => SetZoneKeeps(c, n, z);
  }

  lemma GuardedStepNoClamp(c: CacheState, op: Op)
    requires Books(c) && Guard(c, op)
    ensures NoClamp(c, op)
  {
    LedgerPositive(c);
    hide Core;
    match op
    case OpPromote(u, n, b) => PromoteKeeps(c, u, n, b); hide Promote, Slack;
    case OpReap(order) => ReapExact(c, order); hide RollbackAll;
    case OpRelease(_, _) => FreeingNoClamp(c, op); hide NoClamp;
    case OpFail(_, _) => FreeingNoClamp(c, op); hide NoClamp;
    case OpForget(_, _) => FreeingNoClamp(c, op); hide NoClamp;
    case OpRollback(_) => FreeingNoClamp(c, op); hide NoClamp;
    case OpReleaseConfirmed(_) => FreeingNoClamp(c, op); hide NoClamp;
    case _ =>
  }

  lemma FreeingNoClamp(c: CacheState, op: Op)
    requires Core(c) && Guard(c, op)
        && (op.OpRelease? || op.OpFail? || op.OpForget? || op.OpRollback? || op.OpReleaseConfirmed?)
    ensures NoClamp(c, op)
  {
    hide Core, Slack, SlackKept, Release, Rollback, ReleaseConfirmed, RollbackAll;
    LedgerPositive(c);
    var u := op.uid;
    RollbackKeeps(c, u);
    ReleaseConfirmedKeeps(c, u);
    if op.OpRelease? || op.OpFail? || op.OpForget? { ReleaseKeeps(c, u, op.node); }
  }

  /** A guarded call keeps the books, explains every byte, and never meets a clamp. */
  lemma GuardedStepConserves(c: CacheState, op: Op)
    requires Books(c) && Guard(c, op)
    ensures Books(Step(c, op)) && Conserves(c, op) && NoClamp(c, op)
  {
    GuardedStepMarks(c, op);
    GuardedStepCore(c, op);
    GuardedStepNoClamp(c, op);
    hide Core, Marks, Conserves, NoClamp, Guard, Step;
  }

  lemma RearmOfConfirmedBreaks(c: CacheState, u: string, h: Hold)
    requires Core(c) && u !in c.assumed && h.bytes > 0 && (u in c.confirmed || h.node !in c.nodes)
    ensures !Core(Reserve(c.(confirmed := c.confirmed[u := h]), h.node, h.bytes))
  {
    hide SumBy;
    var c' := Reserve(c.(confirmed := c.confirmed[u := h]), h.node, h.bytes);
    if h.node in c.nodes {
      var m := c.confirmed[u].node;
      HoldSumSet(c.confirmed, u, h, m);
      assert NodeOk(c, m) && !NodeOk(c', m);
    } else {
      assert c'.confirmed[u].node !in c'.nodes;
    }
  }

  lemma MisplacedPromotionBreaks(c: CacheState, u: string, n: string, b: Bytes)
    requires Core(c) && !MarkedReady(c, u) && (n !in c.nodes || (u in c.confirmed && c.confirmed[u].node != n))
    ensures !Core(Promote(c, u, n, b))
  {
    hide SumBy;
    var c' := Promote(c, u, n, b);
    if n in c.nodes {
      var m := c.confirmed[u].node;
      HoldSumDrop(c.confirmed, u, m);
      assert NodeOk(c, m) && c'.nodes[m] == c.nodes[m] && !NodeOk(c', m);
    } else {
      assert u in c'.allocBytes && c'.allocNode[u] !in c'.nodes;
    }
  }

  /** An unguarded call always leaves the books wrong or bytes unexplained. */
  lemma UnguardedStepBreaks(c: CacheState, op: Op)
    requires Books(c) && !Guard(c, op)
    ensures !(Books(Step(c, op)) && Conserves(c, op))
  {
    LedgerPositive(c);
    hide NodeOk, Recalc;
    match op
    case OpConfirm(u, ns, n, b, now) => RearmOfConfirmedBreaks(c, u, Hold(ns, n, b, now)); hide Core;
    case OpPromote(u, n, b) => MisplacedPromotionBreaks(c, u, n, b); hide Core;
    case OpRelease(u, n) => UnguardedReleaseBreaks(c, u, n); hide Core, Release, Books, Conserves;
    case OpFail(u, n) => UnguardedFailBreaks(c, u, n); hide Core, Fail, Books, Conserves;
    case OpForget(u, n) => UnguardedForgetBreaks(c, u, n); hide Core, Forget, Books, Conserves;
    case _ =>
  }

  lemma UnguardedReleaseBreaks(c: CacheState, u: string, n: string)
    requires Books(c) && !Guard(c, OpRelease(u, n))
    ensures !(Books(Release(c, u, n)) && Conserves(c, OpRelease(u, n)))
  {
    LedgerPositive(c);
    ReleaseFrame(c, u, n);
    hide NodeOk, Recalc, Release;
    WrongNodeFree(c, Release(c, u, n), u);
  }

  lemma UnguardedFailBreaks(c: CacheState, u: string, n: string)
    requires Books(c) && !Guard(c, OpFail(u, n))
    ensures !(Books(Fail(c, u, n)) && Conserves(c, OpFail(u, n)))
  {
    LedgerPositive(c);
    FailFrame(c, u, n);
    hide NodeOk, Recalc, Fail;
    WrongNodeFree(c, Fail(c, u, n), u);
  }

  lemma UnguardedForgetBreaks(c: CacheState, u: string, n: string)
    requires Books(c) && !Guard(c, OpForget(u, n))
    ensures !(Books(Forget(c, u, n)) && Conserves(c, OpForget(u, n)))
  {
    LedgerPositive(c);
    ForgetFrame(c, u, n);
    hide NodeOk, Recalc, Release, Fail, Forget;
    if n != "" {
      WrongNodeFree(c, Forget(c, u, n), u);
    } else {
      hide Core;
      assert u in Forget(c, u, n).allocBytes;
    }
  }

  /** Freeing a ledger entry against a node other than its own strands its bytes. */
  lemma WrongNodeFree(c: CacheState, c': CacheState, u: string)
    requires Core(c) && u in c.allocNode
    requires c'.nodes.Keys == c.nodes.Keys && c'.nodes[c.allocNode[u]].granted == c.nodes[c.allocNode[u]].granted
    requires c'.allocBytes == c.allocBytes - {u} && c'.allocNode == c.allocNode - {u}
    ensures c.allocNode[u] in c.nodes && Slack(c', c.allocNode[u]) > Slack(c, c.allocNode[u])
  {
    hide SumBy;
    LedgerSumDrop(c, c', u, c.allocNode[u]);
  }

  /** Conservation holds of a call from balanced books if and only if its guard does. */
  lemma StepExact(c: CacheState, op: Op)
    requires Books(c)
    ensures Books(Step(c, op)) && Conserves(c, op) <==> Guard(c, op)
  {
    hide SumBy;
    if Guard(c, op) { GuardedStepConserves(c, op); } else { UnguardedStepBreaks(c, op); }
  }

  // ----- Runs -----

  function Run(c: CacheState, ops: seq<Op>): CacheState
    decreases |ops|
  {
    if ops == [] then c else Run(Step(c, ops[0]), ops[1..])
  }

  predicate GuardedRun(c: CacheState, ops: seq<Op>)
    decreases |ops|
  {
    ops == [] || (Guard(c, ops[0]) && GuardedRun(Step(c, ops[0]), ops[1..]))
  }

  /** Over every run of guarded calls the books balance at the end. */
  lemma {:induction false} RunConserves(c: CacheState, ops: seq<Op>)
    requires Books(c) && GuardedRun(c, ops)
    ensures Books(Run(c, ops))
    decreases |ops|
  {
    if ops != [] {
      GuardedStepConserves(c, ops[0]);
      RunConserves(Step(c, ops[0]), ops[1..]);
    }
  }

  lemma EmptyCacheBalances()
    ensures Books(EmptyCache)
  {
  }

  // ----- No over-admission -----

  predicate Within(c: CacheState) {
    forall n :: n in c.nodes ==> c.nodes[n].reserved + c.nodes[n].granted <= c.nodes[n].total
  }

  function Room(c: CacheState, node: string): int
    requires node in c.nodes
  {
    c.nodes[node].total - c.nodes[node].reserved - c.nodes[node].granted
  }

  /** The only calls that can overbook a node are a re-arm, a promotion and a capacity report. */
  predicate RoomGuard(c: CacheState, op: Op)
    requires Guard(c, op)
  {
    match op
    case OpConfirm(u, _, n, b, _) => u !in c.assumed ==> b <= Room(c, n)
    case OpPromote(u, n, b) =>
      MarkedReady(c, u) || b <= Room(c, n) + (if u in c.confirmed then c.confirmed[u].bytes else 0)
    case OpUpdateNode(n, t, a) =>
      if n in c.nodes then
        c.nodes[n].reserved + (if a > c.nodes[n].granted then a else c.nodes[n].granted) <= t
      else 0 <= t && a <= t
    case _ => true
  }

  /** Giving back holds or allocated bytes only makes room. */
  ghost predicate OnlyFrees(c: CacheState, c': CacheState) {
    && c'.nodes.Keys == c.nodes.Keys
    && (forall n :: n in c.nodes ==>
          && c'.nodes[n].reserved <= c.nodes[n].reserved
          && c'.nodes[n].granted <= c.nodes[n].granted
          && c'.nodes[n].total == c.nodes[n].total)
  }

  lemma DropHoldOnlyFrees(c: CacheState, u: string)
    requires Core(c)
    ensures OnlyFrees(c, Rollback(c, u)) && OnlyFrees(c, ReleaseConfirmed(c, u))
  {
    RollbackKeeps(c, u);
    ReleaseConfirmedKeeps(c, u);
    assert HoldsOk(c, c.assumed) && HoldsOk(c, c.confirmed);
    hide Core;
    if u in c.assumed { UnreserveOnlyFrees(c, c.assumed[u].node, c.assumed[u].bytes); }
    if u in c.confirmed { UnreserveOnlyFrees(c, c.confirmed[u].node, c.confirmed[u].bytes); }
    hide Unreserve;
  }

  lemma UnreserveOnlyFrees(c: CacheState, n: string, b: int)
    requires 0 <= b && (n in c.nodes ==> b <= c.nodes[n].reserved)
    ensures OnlyFrees(c, Unreserve(c, n, b))
  {
  }

  lemma FreeOnlyFrees(c: CacheState, n: string, b: int)
    requires 0 <= b && (n in c.nodes ==> b <= c.nodes[n].granted)
    ensures OnlyFrees(c, FreeAllocated(c, n, b))
  {
  }

  lemma {:induction false} ReapOnlyFrees(c: CacheState, order: seq<string>)
    requires Core(c)
    ensures OnlyFrees(c, RollbackAll(c, order))
    decreases |order|
  {
    hide Core;
    if order != [] {
      ReapOnlyFrees(c, order[..|order| - 1]);
      ReapKeeps(c, order[..|order| - 1]);
      DropHoldOnlyFrees(RollbackAll(c, order[..|order| - 1]), order[|order| - 1]);
      hide Rollback;
    }
  }

  lemma ReleaseOnlyFrees(c: CacheState, u: string, n: string)
    requires Core(c) && (u in c.allocNode ==> c.allocNode[u] == n)
    ensures OnlyFrees(c, Release(c, u, n))
  {
    LedgerPositive(c);
    if n in c.nodes { CoreFacts(c, n); }
    FreeOnlyFrees(ReleaseBegin(c, u), n, LedgerBytes(c, u));
    hide Core, FreeAllocated;
  }

  lemma FailOnlyFrees(c: CacheState, u: string, n: string)
    requires Core(c) && (u in c.allocNode ==> c.allocNode[u] == n)
    ensures OnlyFrees(c, Fail(c, u, n))
  {
    if FailActs(c, u) {
      FailHalf(c, u, n);
      var c2 := if LedgerBytes(c, u) > 0 then FreeAllocated(FailBegin(c, u), n, LedgerBytes(c, u)) else FailBegin(c, u);
      DropHoldOnlyFrees(c2, u);
      OnlyFreesTrans(c, c2, ReleaseConfirmed(c2, u));
      hide Core, ReleaseConfirmed, FreeAllocated, OnlyFrees;
    } else {
      hide Core;
    }
  }

  lemma OnlyFreesTrans(a: CacheState, b: CacheState, c: CacheState)
    requires OnlyFrees(a, b) && OnlyFrees(b, c)
    ensures OnlyFrees(a, c)
  {
  }

  lemma FailHalf(c: CacheState, u: string, n: string)
    requires Core(c) && (u in c.allocNode ==> c.allocNode[u] == n) && FailActs(c, u)
    ensures var c2 := if LedgerBytes(c, u) > 0 then FreeAllocated(FailBegin(c, u), n, LedgerBytes(c, u))
        else FailBegin(c, u);
            Core(c2) && OnlyFrees(c, c2)
  {
    LedgerPositive(c);
    if n in c.nodes { CoreFacts(c, n); }
    hide Core, Slack, OnlyFrees;
    DropLedgerKeeps(c, u, MarkFailed);
    var c1 := FailBegin(c, u);
    FreeOnlyFrees(c1, n, LedgerBytes(c, u));
    FailFreeCovered(c, u, n);
    FreeKeeps(c1, n, LedgerBytes(c, u));
    OnlyFreesDropLedger(c, u);
    OnlyFreesTrans(c, c1, FreeAllocated(c1, n, LedgerBytes(c, u)));
    hide FreeAllocated, SlackMoves;
  }

  lemma OnlyFreesDropLedger(c: CacheState, u: string)
    ensures OnlyFrees(c, FailBegin(c, u))
  {
  }

  lemma FailFreeCovered(c: CacheState, u: string, n: string)
    requires Core(c) && (u in c.allocNode ==> c.allocNode[u] == n) && FailActs(c, u)
    ensures n in c.nodes ==> LedgerBytes(c, u) <= Slack(FailBegin(c, u), n)
  {
    LedgerPositive(c);
    if n in c.nodes { CoreFacts(c, n); }
    hide Core, Slack;
    DropLedgerKeeps(c, u, MarkFailed);
  }

  lemma ForgetOnlyFrees(c: CacheState, u: string, n: string)
    requires Core(c) && (u in c.allocNode ==> c.allocNode[u] == n)
    ensures OnlyFrees(c, Forget(c, u, n))
  {
    hide Core, OnlyFrees;
    RollbackKeeps(c, u);
    DropHoldOnlyFrees(c, u);
    var c1 := Rollback(c, u);
    ReleaseConfirmedKeeps(c1, u);
    DropHoldOnlyFrees(c1, u);
    var c2 := ReleaseConfirmed(c1, u);
    OnlyFreesTrans(c, c1, c2);
    DropBothFrame(c, u, n);
    ReleaseOnlyFrees(c2, u, n);
    OnlyFreesTrans(c, c2, Release(c2, u, n));
    OnlyFreesDropMark(c, if n != "" then Release(c2, u, n) else c2, u);
    hide Rollback, ReleaseConfirmed, Release, NodesLike, DropMark;
  }

  lemma OnlyFreesDropMark(c: CacheState, c': CacheState, u: string)
    requires OnlyFrees(c, c')
    ensures OnlyFrees(c, DropMark(c', u))
  {
  }

  /** From balanced, within-capacity books, a guarded call overbooks a node exactly when its room check fails. */
  lemma AdmissionExact(c: CacheState, op: Op)
    requires Books(c) && Within(c) && Guard(c, op)
    ensures Within(Step(c, op)) <==> RoomGuard(c, op)
  {
    match op
    case OpRelease(u, n) => ReleaseOnlyFrees(c, u, n); hide Release, Core;
    case OpFail(u, n) => FailOnlyFrees(c, u, n); hide Fail, Core;
    case OpForget(u, n) => ForgetOnlyFrees(c, u, n); hide Forget, Core;
    case OpRollback(u) => DropHoldOnlyFrees(c, u); hide Rollback, Core;
    case OpReleaseConfirmed(u) => DropHoldOnlyFrees(c, u); hide ReleaseConfirmed, Core;
    case OpReap(order) => ReapOnlyFrees(c, order); hide Core;
    case _ => ChargeExact(c, op);
  }

  /** The calls that charge a node. */
  lemma ChargeExact(c: CacheState, op: Op)
    requires Books(c) && Within(c) && Guard(c, op)
    requires op.OpAssume? || op.OpConfirm? || op.OpPromote? || op.OpPin? || op.OpUpdateNode? || op.OpRemoveNode?
        || op.OpSetHealth? || op.OpSetZone?
    ensures Within(Step(c, op)) <==> RoomGuard(c, op)
  {
    match op
    case OpAssume(u, ns, n, b, e) => if n in c.nodes { assert NodeOk(c, n); } hide Core;
    case OpConfirm(u, ns, n, b, now) => hide Core; assert n in c.nodes ==> n in Confirm(c, u, ns, n, b, now).nodes;
    case OpPromote(u, n, b) => PromoteExact(c, u, n, b); hide Core, Promote, Within;
    case _ => hide Core; NodeReportExact(c, op); hide Within;
  }

  lemma NodeReportExact(c: CacheState, op: Op)
    requires Within(c) && (op.OpPin? || op.OpUpdateNode? || op.OpRemoveNode? || op.OpSetHealth? || op.OpSetZone?)
    ensures Guard(c, op) && (Within(Step(c, op)) <==> RoomGuard(c, op))
  {
    var c' := Step(c, op);
    match op
    case OpUpdateNode(n, t, a) => assert n in c'.nodes;
    case _ =>
  }

  lemma PromoteExact(c: CacheState, u: string, n: string, b: Bytes)
    requires Books(c) && Within(c) && Guard(c, OpPromote(u, n, b))
    ensures Within(Promote(c, u, n, b)) <==> RoomGuard(c, OpPromote(u, n, b))
  {
    if !MarkedReady(c, u) {
      PromoteNodes(c, u, n, b);
      PromotedCounters(c, u, n, b);
      hide Core, Marks, Promote, NodeOk, Slack;
      assert n in Promote(c, u, n, b).nodes;
    }
  }

  predicate AdmittedRun(c: CacheState, ops: seq<Op>)
    decreases |ops|
  {
    ops == [] || (Guard(c, ops[0]) && RoomGuard(c, ops[0]) && AdmittedRun(Step(c, ops[0]), ops[1..]))
  }

  /** No over-admission: in every such run reserved plus allocated stays within total on every node. */
  lemma {:induction false} NoOverAdmission(c: CacheState, ops: seq<Op>)
    requires Books(c) && Within(c) && AdmittedRun(c, ops)
    ensures Books(Run(c, ops)) && Within(Run(c, ops))
    decreases |ops|
  {
    if ops != [] {
      GuardedStepConserves(c, ops[0]);
      AdmissionExact(c, ops[0]);
      NoOverAdmission(Step(c, ops[0]), ops[1..]);
    }
  }

  /** A run in which nothing is ever re-armed, every promotion is of a confirmed slice at no more than it
      reserved, and nodes keep the total they registered with and report no outside consumption. */
  predicate Disciplined(c: CacheState, op: Op) {
    Guard(c, op) &&
    match op
    case OpConfirm(u, _, _, _, _) => u in c.assumed
    case OpPromote(u, _, b) => MarkedReady(c, u) || (u in c.confirmed && b <= c.confirmed[u].bytes)
    case OpUpdateNode(n, t, a) => a <= 0 <= t && (n in c.nodes ==> t == c.nodes[n].total)
    case _ => true
  }

  predicate DisciplinedRun(c: CacheState, ops: seq<Op>)
    decreases |ops|
  {
    ops == [] || (Disciplined(c, ops[0]) && DisciplinedRun(Step(c, ops[0]), ops[1..]))
  }

  /** The discipline needs no capacity check of its own: the checks in Assume are enough. */
  lemma {:induction false} DisciplineSuffices(c: CacheState, ops: seq<Op>)
    requires Books(c) && Within(c) && DisciplinedRun(c, ops)
    ensures AdmittedRun(c, ops) && Within(Run(c, ops))
    decreases |ops|
  {
    if ops != [] {
      var op := ops[0];
      if op.OpUpdateNode? && op.node in c.nodes {
        assert NodeOk(c, op.node);
        LedgerSumBounds(c, op.node);
      }
      GuardedStepConserves(c, op);
      AdmissionExact(c, op);
      DisciplineSuffices(Step(c, op), ops[1..]);
    }
  }
}
