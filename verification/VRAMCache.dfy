/**
 * The scheduler's VRAM cache: per-node counters and the per-slice maps behind them.
 * `CacheState` and its functions say what each critical section does to the books;
 * the class `VRAMCache` performs the same sections in place.
 * Bytes are unbounded integers.
 */
module VRAMCaches {
  import opened Sums

  datatype NodeState = NodeState(
    total: int, granted: int, reserved: int, free: int, healthy: bool, zone: string)

  /** A speculative or confirmed reservation. */
  datatype Hold = Hold(namespace: string, node: string, bytes: int, expires: int)

  /** Last phase reconciled into the cache; a slice never synced has no mark. */
  datatype Mark = MarkReady | MarkReleased | MarkFailed

  datatype CacheState = CacheState(
    nodes: map<string, NodeState>,
    assumed: map<string, Hold>,
    confirmed: map<string, Hold>,
    synced: map<string, Mark>,
    allocBytes: map<string, int>,
    allocNode: map<string, string>)

  datatype AssumeResult =
    | Assumed
    | AlreadyAssumed
    | AlreadyConfirmed
    | NodeNotFound
    | NodeUnhealthy
    | InsufficientVRAM

  datatype PromoteResult = Promoted | AlreadySynced | PromotionNodeMissing | DirectFallback

  const EmptyCache := CacheState(map[], map[], map[], map[], map[], map[])

  function Floor0(x: int): (r: int)
    ensures r >= 0 && r >= x && (r == 0 || r == x)
  {
    if x < 0 then 0 else x
  }

  function Recalc(n: NodeState): NodeState {
    n.(free := Floor0(n.total - n.granted - n.reserved))
  }

  // ----- Sections of cache.go that touch one node counter -----

  function Reserve(c: CacheState, node: string, bytes: int): CacheState {
    if node !in c.nodes then c
    else
      var n := c.nodes[node];
      c.(nodes := c.nodes[node := Recalc(n.(reserved := n.reserved + bytes))])
  }

  function Unreserve(c: CacheState, node: string, bytes: int): CacheState {
    if node !in c.nodes then c
    else
      var n := c.nodes[node];
      c.(nodes := c.nodes[node := Recalc(n.(reserved := Floor0(n.reserved - bytes)))])
  }

  function FreeAllocated(c: CacheState, node: string, bytes: int): CacheState {
    if node !in c.nodes then c
    else
      var n := c.nodes[node];
      c.(nodes := c.nodes[node := Recalc(n.(granted := Floor0(n.granted - bytes)))])
  }

  // ----- Critical sections -----

  function AssumeVerdict(c: CacheState, uid: string, node: string, bytes: int): AssumeResult {
    if uid in c.assumed then AlreadyAssumed
    else if uid in c.confirmed then AlreadyConfirmed
    else if node !in c.nodes then NodeNotFound
    else if !c.nodes[node].healthy then NodeUnhealthy
    else if c.nodes[node].free < bytes then InsufficientVRAM
    else Assumed
  }

  function Assume(c: CacheState, uid: string, namespace: string, node: string, bytes: int, expires: int): CacheState {
    if AssumeVerdict(c, uid, node, bytes) != Assumed then c
    else Reserve(c.(assumed := c.assumed[uid := Hold(namespace, node, bytes, expires)]), node, bytes)
  }

  /** Confirm an assumed hold, or re-arm it when the hold is gone. */
  function Confirm(c: CacheState, uid: string, namespace: string, node: string, bytes: int, now: int): CacheState {
    if uid in c.assumed then
      c.(confirmed := c.confirmed[uid := c.assumed[uid]], assumed := c.assumed - {uid})
    else
      Reserve(c.(confirmed := c.confirmed[uid := Hold(namespace, node, bytes, now)]), node, bytes)
  }

  function MarkedReady(c: CacheState, uid: string): bool {
    uid in c.synced && c.synced[uid] == MarkReady
  }

  function PromoteVerdict(c: CacheState, uid: string, node: string): PromoteResult {
    if MarkedReady(c, uid) then AlreadySynced
    else if node !in c.nodes then PromotionNodeMissing
    else if uid in c.confirmed then Promoted
    else DirectFallback
  }

  /** Promotion of a slice's hold into an allocation; a missing node changes nothing. */
  function PromoteLocked(c: CacheState, uid: string, node: string, bytes: int): CacheState {
    if node !in c.nodes then c
    else
      var n := c.nodes[node];
      if uid in c.confirmed then
        c.(nodes := c.nodes[node := Recalc(n.(reserved := Floor0(n.reserved - c.confirmed[uid].bytes),
                                              granted := n.granted + bytes))],
           confirmed := c.confirmed - {uid})
      else
        c.(nodes := c.nodes[node := Recalc(n.(granted := n.granted + bytes))])
  }

  function Promote(c: CacheState, uid: string, node: string, bytes: int): CacheState {
    if MarkedReady(c, uid) then c
    else
      var c' := PromoteLocked(c, uid, node, bytes);
      c'.(synced := c'.synced[uid := MarkReady],
          allocBytes := c'.allocBytes[uid := bytes],
          allocNode := c'.allocNode[uid := node])
  }

  /** The ledger half shared by release and fail: the per-slice entry goes, the counter does not move. */
  function DropLedger(c: CacheState, uid: string, mark: Mark): CacheState {
    c.(synced := c.synced[uid := mark], allocBytes := c.allocBytes - {uid}, allocNode := c.allocNode - {uid})
  }

  function LedgerBytes(c: CacheState, uid: string): int {
    if uid in c.allocBytes then c.allocBytes[uid] else 0
  }

  predicate ReleaseActs(c: CacheState, uid: string) {
    !(uid in c.synced && c.synced[uid] == MarkReleased) && (uid in c.allocBytes || uid in c.synced)
  }

  function ReleaseBegin(c: CacheState, uid: string): CacheState {
    if ReleaseActs(c, uid) then DropLedger(c, uid, MarkReleased) else c
  }

  predicate FailActs(c: CacheState, uid: string) {
    !(uid in c.synced && c.synced[uid] != MarkReady)
    && (uid in c.confirmed || uid in c.allocBytes || uid in c.synced)
  }

  function FailBegin(c: CacheState, uid: string): CacheState {
    if FailActs(c, uid) then DropLedger(c, uid, MarkFailed) else c
  }

  function Rollback(c: CacheState, uid: string): CacheState {
    if uid !in c.assumed then c
    else
      var h := c.assumed[uid];
      Unreserve(c, h.node, h.bytes).(assumed := c.assumed - {uid})
  }

  function ReleaseConfirmed(c: CacheState, uid: string): CacheState {
    if uid !in c.confirmed then c
    else
      var h := c.confirmed[uid];
      Unreserve(c, h.node, h.bytes).(confirmed := c.confirmed - {uid})
  }

  function DropMark(c: CacheState, uid: string): CacheState {
    c.(synced := c.synced - {uid})
  }

  function UpdateNode(c: CacheState, node: string, total: int, granted: int): CacheState {
    var n := if node in c.nodes then c.nodes[node] else NodeState(0, 0, 0, 0, true, "");
    var n' := n.(total := total, granted := if granted > n.granted then granted else n.granted);
    c.(nodes := c.nodes[node := Recalc(n')])
  }

  function OnNode(holds: map<string, Hold>, node: string): set<string> {
    set u | u in holds && holds[u].node == node
  }

  function LedgerOnNode(c: CacheState, node: string): set<string> {
    set u | u in c.allocNode && c.allocNode[u] == node
  }

  function RemoveNode(c: CacheState, node: string): CacheState {
    if node !in c.nodes then c
    else
      var gone := LedgerOnNode(c, node);
      CacheState(c.nodes - {node},
                 c.assumed - OnNode(c.assumed, node),
                 c.confirmed - OnNode(c.confirmed, node),
                 c.synced - gone, c.allocBytes - gone, c.allocNode - gone)
  }

  function SetHealth(c: CacheState, node: string, healthy: bool): CacheState {
    if node !in c.nodes then c
    else c.(nodes := c.nodes[node := c.nodes[node].(healthy := healthy)])
  }

  function SetZone(c: CacheState, node: string, zone: string): CacheState {
    var n := if node in c.nodes then c.nodes[node] else NodeState(0, 0, 0, 0, true, "");
    c.(nodes := c.nodes[node := n.(zone := zone)])
  }

  function Pin(c: CacheState, uid: string, expires: int): CacheState {
    if uid !in c.assumed then c
    else c.(assumed := c.assumed[uid := c.assumed[uid].(expires := expires)])
  }

  /** Holds the reaper may roll back at `now`: strictly past their expiry. */
  function Expired(c: CacheState, now: int): set<string> {
    set u | u in c.assumed && now > c.assumed[u].expires
  }

  // ----- Whole operations, as sequences of critical sections -----

  function Release(c: CacheState, uid: string, node: string): CacheState {
    if ReleaseActs(c, uid) then FreeAllocated(ReleaseBegin(c, uid), node, LedgerBytes(c, uid)) else c
  }

  function Fail(c: CacheState, uid: string, node: string): CacheState {
    if !FailActs(c, uid) then c
    else
      var c1 := FailBegin(c, uid);
      var c2 := if LedgerBytes(c, uid) > 0 then FreeAllocated(c1, node, LedgerBytes(c, uid)) else c1;
      ReleaseConfirmed(c2, uid)
  }

  function Forget(c: CacheState, uid: string, node: string): CacheState {
    var c1 := ReleaseConfirmed(Rollback(c, uid), uid);
    var c2 := if node != "" then Release(c1, uid, node) else c1;
    DropMark(c2, uid)
  }

  /** Reaping is a rollback of each expired hold, in the order the map iteration happens to give. */
  function RollbackAll(c: CacheState, order: seq<string>): CacheState {
    if order == [] then c else Rollback(RollbackAll(c, order[..|order| - 1]), order[|order| - 1])
  }

  ghost predicate Enumerates(order: seq<string>, s: set<string>) {
    (forall u :: u in order <==> u in s) && (forall i, j :: 0 <= i < j < |order| ==> order[i] != order[j])
  }

  /** Weight of a hold a namespace has in flight, apart from those already counted elsewhere. */
  ghost function PendingWeight(namespace: string, counted: set<string>): (string, Hold) -> int {
    (u: string, h: Hold) => if h.namespace == namespace && u !in counted then h.bytes else 0
  }

  ghost function PendingBytes(c: CacheState, namespace: string, counted: set<string>): int {
    SumBy(c.assumed, PendingWeight(namespace, counted)) + SumBy(c.confirmed, PendingWeight(namespace, counted))
  }
}

/** The mutable cache: every method performs exactly the section named in its postcondition. */
module VRAMCacheClass {
  import opened VRAMCaches
  import opened Sums

  class VRAMCache {
    var nodes: map<string, NodeState>
    var assumed: map<string, Hold>
    var confirmed: map<string, Hold>
    var synced: map<string, Mark>
    var allocBytes: map<string, int>
    var allocNode: map<string, string>
    var seeded: bool

    ghost function View(): CacheState
      reads this
    {
      CacheState(nodes, assumed, confirmed, synced, allocBytes, allocNode)
    }

    constructor ()
      ensures View() == EmptyCache && !seeded
    {
      nodes, assumed, confirmed := map[], map[], map[];
      synced, allocBytes, allocNode := map[], map[], map[];
      seeded := false;
    }

    method MarkSeeded()
      modifies this`seeded
      ensures seeded
    {
      seeded := true;
    }

    method CanFit(node: string, bytes: int) returns (fits: bool)
      ensures fits <==> node in nodes && nodes[node].healthy && bytes <= nodes[node].free
    {
      if node !in nodes { return false; }
      if !nodes[node].healthy { return false; }
      fits := !(nodes[node].free < bytes);
    }

    method AssumeSlice(uid: string, namespace: string, node: string, bytes: int, expires: int) returns (r: AssumeResult)
      modifies this
      ensures r == AssumeVerdict(old(View()), uid, node, bytes)
      ensures View() == Assume(old(View()), uid, namespace, node, bytes, expires)
      ensures seeded == old(seeded)
    {
      if uid in assumed { return AlreadyAssumed; }
      if uid in confirmed { return AlreadyConfirmed; }
      if node !in nodes { return NodeNotFound; }
      var n := nodes[node];
      if !n.healthy { return NodeUnhealthy; }
      if n.free < bytes { return InsufficientVRAM; }
      assumed := assumed[uid := Hold(namespace, node, bytes, expires)];
      n := n.(reserved := n.reserved + bytes);
      nodes := nodes[node := Recalc(n)];
      r := Assumed;
    }

    method ConfirmSliceOrRearm(uid: string, namespace: string, node: string, bytes: int, now: int)
        returns (rearmed: bool)
      modifies this
      ensures rearmed == (uid !in old(assumed))
      ensures View() == Confirm(old(View()), uid, namespace, node, bytes, now)
      ensures seeded == old(seeded)
    {
      if uid in assumed {
        confirmed := confirmed[uid := assumed[uid]];
        assumed := assumed - {uid};
        return false;
      }
      confirmed := confirmed[uid := Hold(namespace, node, bytes, now)];
      if node in nodes {
        var n := nodes[node];
        n := n.(reserved := n.reserved + bytes);
        nodes := nodes[node := Recalc(n)];
      }
      rearmed := true;
    }

    method PromoteSliceToAllocatedOnce(uid: string, node: string, bytes: int) returns (r: PromoteResult)
      modifies this
      ensures r == PromoteVerdict(old(View()), uid, node)
      ensures View() == Promote(old(View()), uid, node, bytes)
      ensures seeded == old(seeded)
    {
      if uid in synced && synced[uid] == MarkReady { return AlreadySynced; }
      r := PromoteConfirmedToAllocated(uid, node, bytes);
      synced := synced[uid := MarkReady];
      allocBytes := allocBytes[uid := bytes];
      allocNode := allocNode[uid := node];
    }

    method PromoteConfirmedToAllocated(uid: string, node: string, bytes: int) returns (r: PromoteResult)
      modifies this
      ensures View() == PromoteLocked(old(View()), uid, node, bytes)
      ensures r == if node !in old(nodes) then PromotionNodeMissing
                   else if uid in old(confirmed) then Promoted else DirectFallback
      ensures seeded == old(seeded)
    {
      if node !in nodes { return PromotionNodeMissing; }
      var n := nodes[node];
      if uid in confirmed {
        n := n.(reserved := n.reserved - confirmed[uid].bytes);
        if n.reserved < 0 { n := n.(reserved := 0); }
        n := n.(granted := n.granted + bytes);
        confirmed := confirmed - {uid};
        nodes := nodes[node := Recalc(n)];
        return Promoted;
      }
      n := n.(granted := n.granted + bytes);
      nodes := nodes[node := Recalc(n)];
      r := DirectFallback;
    }

    method RollbackAssumedSlice(uid: string)
      modifies this
      ensures View() == Rollback(old(View()), uid)
      ensures seeded == old(seeded)
    {
      if uid in assumed {
        var h := assumed[uid];
        if h.node in nodes {
          var n := nodes[h.node];
          n := n.(reserved := n.reserved - h.bytes);
          if n.reserved < 0 { n := n.(reserved := 0); }
          nodes := nodes[h.node := Recalc(n)];
        }
        assumed := assumed - {uid};
      }
    }

    method ReleaseConfirmedSlice(uid: string)
      modifies this
      ensures View() == ReleaseConfirmed(old(View()), uid)
      ensures seeded == old(seeded)
    {
      if uid in confirmed {
        var h := confirmed[uid];
        if h.node in nodes {
          var n := nodes[h.node];
          n := n.(reserved := n.reserved - h.bytes);
          if n.reserved < 0 { n := n.(reserved := 0); }
          nodes := nodes[h.node := Recalc(n)];
        }
        confirmed := confirmed - {uid};
      }
    }

    method ReleaseAllocated(node: string, bytes: int)
      modifies this
      ensures View() == FreeAllocated(old(View()), node, bytes)
      ensures seeded == old(seeded)
    {
      if node in nodes {
        var n := nodes[node];
        n := n.(granted := n.granted - bytes);
        if n.granted < 0 { n := n.(granted := 0); }
        nodes := nodes[node := Recalc(n)];
      }
    }

    method ReleaseSliceOnce(uid: string, node: string)
      modifies this
      ensures View() == Release(old(View()), uid, node)
      ensures seeded == old(seeded)
    {
      if uid in synced && synced[uid] == MarkReleased { return; }
      if uid !in allocBytes && uid !in synced { return; }
      var bytes := if uid in allocBytes then allocBytes[uid] else 0;
      synced := synced[uid := MarkReleased];
      allocBytes := allocBytes - {uid};
      allocNode := allocNode - {uid};
      assert View() == ReleaseBegin(old(View()), uid);
      ReleaseAllocated(node, bytes);
    }

    method FailSliceOnce(uid: string, node: string)
      modifies this
      ensures View() == Fail(old(View()), uid, node)
      ensures seeded == old(seeded)
    {
      if uid in synced && (synced[uid] == MarkFailed || synced[uid] == MarkReleased) { return; }
      if uid !in confirmed {
        if uid !in allocBytes && uid !in synced { return; }
      }
      var bytes := if uid in allocBytes then allocBytes[uid] else 0;
      synced := synced[uid := MarkFailed];
      allocBytes := allocBytes - {uid};
      allocNode := allocNode - {uid};
      assert View() == FailBegin(old(View()), uid);
      if bytes > 0 {
        ReleaseAllocated(node, bytes);
      }
      ReleaseConfirmedSlice(uid);
    }

    method ForgetSlice(uid: string, node: string)
      modifies this
      ensures View() == Forget(old(View()), uid, node)
      ensures seeded == old(seeded)
    {
      RollbackAssumedSlice(uid);
      ReleaseConfirmedSlice(uid);
      if node != "" {
        ReleaseSliceOnce(uid, node);
      }
      synced := synced - {uid};
    }

    method UpdateNodeCapacity(node: string, total: int, granted: int)
      modifies this
      ensures View() == UpdateNode(old(View()), node, total, granted)
      ensures seeded == old(seeded)
    {
      var n := if node in nodes then nodes[node] else NodeState(0, 0, 0, 0, true, "");
      n := n.(total := total);
      if granted > n.granted { n := n.(granted := granted); }
      nodes := nodes[node := Recalc(n)];
    }

    method PinAssumption(uid: string, expires: int) returns (node: string, bytes: int, ok: bool)
      modifies this
      ensures ok == (uid in old(assumed))
      ensures ok ==> node == old(assumed)[uid].node && bytes == old(assumed)[uid].bytes
      ensures View() == Pin(old(View()), uid, expires)
      ensures seeded == old(seeded)
    {
      if uid in assumed {
        assumed := assumed[uid := assumed[uid].(expires := expires)];
        return assumed[uid].node, assumed[uid].bytes, true;
      }
      return "", 0, false;
    }

    /** The TTL reaper: deletes from the map it walks, in an arbitrary order. */
    method ReapExpiredAssumptions(now: int) returns (ghost order: seq<string>)
      modifies this
      ensures Enumerates(order, Expired(old(View()), now))
      ensures View() == RollbackAll(old(View()), order)
      ensures seeded == old(seeded)
    {
      order := [];
      var todo := assumed.Keys;
      while todo != {}
        invariant todo <= assumed.Keys
        invariant forall u :: u in todo ==> u in old(assumed) && assumed[u] == old(assumed)[u]
        invariant Enumerates(order, Expired(old(View()), now) - todo)
        invariant View() == RollbackAll(old(View()), order)
        invariant seeded == old(seeded)
        decreases todo
      {
        var uid :| uid in todo;
        ghost var before, prefix := View(), order;
        if now > assumed[uid].expires {
          RollbackAssumedSlice(uid);
          order := order + [uid];
          assert order[..|order| - 1] == prefix;
        }
        todo := todo - {uid};
      }
      assert Expired(old(View()), now) - {} == Expired(old(View()), now);
    }

    /** Node removal: three loops, each deleting from the map it walks. */
    method RemoveNodeEntirely(node: string)
      modifies this
      ensures View() == RemoveNode(old(View()), node)
      ensures seeded == old(seeded)
    {
      if node !in nodes { return; }
      assumed := DropOnNode(assumed, node);
      confirmed := DropOnNode(confirmed, node);
      allocNode, allocBytes, synced := DropLedgerOnNode(allocNode, allocBytes, synced, node);
      nodes := nodes - {node};
    }

    /** Bytes in flight for a namespace: assumed plus confirmed holds outside `counted`. */
    method PendingNamespaceBytes(namespace: string, counted: set<string>) returns (total: int)
      ensures total == PendingBytes(View(), namespace, counted)
    {
      var a := SumPending(assumed, namespace, counted);
      var b := SumPending(confirmed, namespace, counted);
      total := a + b;
    }
  }

  method DropOnNode(holds: map<string, Hold>, node: string) returns (kept: map<string, Hold>)
    ensures kept == holds - OnNode(holds, node)
  {
    kept := holds;
    var todo := holds.Keys;
    ghost var gone: set<string> := {};
    while todo != {}
      invariant gone <= OnNode(holds, node) <= gone + todo
      invariant todo <= kept.Keys
      invariant kept == holds - gone
      decreases todo
    {
      var uid :| uid in todo;
      if kept[uid].node == node {
        kept := kept - {uid};
        gone := gone + {uid};
      }
      todo := todo - {uid};
    }
  }

  method DropLedgerOnNode(nodeOf: map<string, string>, bytesOf: map<string, int>, markOf: map<string, Mark>,
      node: string)
    returns (nodes: map<string, string>, bytes: map<string, int>, marks: map<string, Mark>)
    ensures var gone := set u | u in nodeOf && nodeOf[u] == node;
            nodes == nodeOf - gone && bytes == bytesOf - gone && marks == markOf - gone
  {
    nodes, bytes, marks := nodeOf, bytesOf, markOf;
    var todo := nodeOf.Keys;
    ghost var gone: set<string> := {};
    while todo != {}
      invariant forall u :: u in gone <==> u in nodeOf && nodeOf[u] == node && u !in todo
      invariant todo <= nodes.Keys
      invariant nodes == nodeOf - gone && bytes == bytesOf - gone && marks == markOf - gone
      decreases todo
    {
      var uid :| uid in todo;
      if nodes[uid] == node {
        nodes, bytes, marks := nodes - {uid}, bytes - {uid}, marks - {uid};
        gone := gone + {uid};
      }
      todo := todo - {uid};
    }
    assert gone == set u | u in nodeOf && nodeOf[u] == node;
  }

  method SumPending(holds: map<string, Hold>, namespace: string, counted: set<string>) returns (total: int)
    ensures total == SumBy(holds, PendingWeight(namespace, counted))
  {
    total := 0;
    var todo := holds.Keys;
    ghost var w := PendingWeight(namespace, counted);
    assert holds - todo == map[];
    while todo != {}
      invariant todo <= holds.Keys
      invariant total == SumBy(holds - todo, w)
      decreases todo
    {
      var uid :| uid in todo;
      SumRemove(holds - (todo - {uid}), w, uid);
      assert holds - (todo - {uid}) - {uid} == holds - todo;
      if holds[uid].namespace == namespace && uid !in counted {
        total := total + holds[uid].bytes;
      }
      todo := todo - {uid};
    }
    assert holds - {} == holds;
  }
}
