/**
 * One scheduling cycle as a transaction on the cache: quota check, reserve, gate, pin, bind, confirm, with
 * the deferred rollback at every exit and a preemption when no node has room. It calls the quota checker, the
 * gang gate and the victim planner themselves; API reads and writes are inputs, and the TTL reaper may take
 * this slice's hold while the gate or the bind call is in flight.
 */
module Scheduling {
  import opened Sums
  import opened VRAMCaches
  import opened VRAMCacheClass
  import opened CacheConservation
  import opened GangGates
  import opened GangGateClass
  import opened Scores
  import opened Quotas
  import Preemption

  const BIND_PIN_TTL := 30 * SECOND

  datatype GateReply = NoGate | SliceUnread | GateError | Reply(verdict: Verdict)

  /** What the quota check reads: the gang of the slice and its size, and the two lists. */
  datatype QuotaReads =
    | Unlimited
    | ContextUnread
    | Reads(gangRef: string, gangSize: int, quotasListed: bool, quotas: seq<Quota>, slicesListed: bool,
        items: seq<(string, Listed)>)

  /** What a preemption attempt reads, and whether its victims could be marked. */
  datatype PreemptionReads =
    | NoPreemptor
    | Victims(gangMember: bool, requester: string, priority: int, listed: bool, listing: seq<Preemption.Listing>,
        marked: bool)

  /** What the world answers during the cycle, and when. `call` is the gate check's reading; its slice, node and bytes
      are those of the transaction. */
  datatype Env = Env(
    quota: QuotaReads, preemption: PreemptionReads, sliceRead: bool, call: Call, bindOk: bool,
    reapedAtGate: bool, reapedMidBind: bool, reserveAt: int, pinAt: int, confirmAt: int)

  /** A gang member's quota is its whole gang's. */
  function GangTotal(q: QuotaReads, bytes: int): int
    requires q.Reads?
  {
    if q.gangRef != "" && q.gangSize > 0 then q.gangSize * bytes else 0
  }

  ghost predicate QuotaPasses(q: QuotaReads, seen: map<string, Listed>, c: CacheState, namespace: string, bytes: int) {
    match q
    case Unlimited => true
    case ContextUnread => false
    case Reads(gangRef, _, quotasListed, quotas, slicesListed, _) =>
      Passes(c, quotasListed, quotas, slicesListed, seen, namespace, bytes, gangRef, GangTotal(q, bytes))
  }

  // ----- The quota in plain terms -----

  /** Bytes of listed slices that stand outside `gang`: bound and not over, by allocation or else by request. */
  ghost function ListedUse(seen: map<string, Listed>, gang: string): int {
    SumBy(seen, (u: string, s: Listed) =>
      if s.bound && !s.over && !(gang != "" && s.gang == gang) then (if s.granted > 0 then s.granted else s.requested)
      else 0)
  }

  /** Bytes held in the namespace for slices that no list shows bound or in `gang`. */
  ghost function Unlisted(holds: map<string, Hold>, seen: map<string, Listed>, namespace: string, gang: string): int {
    SumBy(holds, (u: string, h: Hold) =>
      if h.namespace == namespace && (u in seen ==> !seen[u].bound && (gang == "" || seen[u].gang != gang)) then h.bytes
      else 0)
  }

  predicate Governs(quotas: seq<Quota>, namespace: string, i: int) {
    0 <= i < |quotas| && quotas[i].namespace == namespace && forall j :: 0 <= j < i ==> quotas[j].namespace != namespace
  }

  /** The slice, or all of its gang, fits under the namespace's first quota beside everything held outside the gang;
      nothing is asked of it when no quota governs or a list fails, and it waits when its gang cannot be told. */
  ghost predicate WithinQuota(q: QuotaReads, seen: map<string, Listed>, c: CacheState, namespace: string, bytes: int) {
    match q
    case Unlimited => true
    case ContextUnread => false
    case Reads(gangRef, gangSize, quotasListed, quotas, slicesListed, _) =>
      var gang := if gangSize > 0 then gangRef else "";
      quotasListed && slicesListed ==>
        forall i :: Governs(quotas, namespace, i) ==>
          ListedUse(seen, gang) + Unlisted(c.assumed, seen, namespace, gang) + Unlisted(c.confirmed, seen, namespace,
              gang)
          + (if gang != "" then gangSize * bytes else bytes) <= quotas[i].max
  }

  lemma UseIsListed(seen: map<string, Listed>, gang: string)
    ensures SumBy(seen, UsedWeight(gang)) == ListedUse(seen, gang)
  {
    SumCongruent(seen, UsedWeight(gang), seen, (u: string, s: Listed) =>
      if s.bound && !s.over && !(gang != "" && s.gang == gang) then (if s.granted > 0 then s.granted else s.requested)
      else 0);
    hide SumBy;
  }

  lemma PendingIsUnlisted(holds: map<string, Hold>, seen: map<string, Listed>, namespace: string, gang: string)
    ensures SumBy(holds, PendingWeight(namespace, CountedSet(seen, gang))) == Unlisted(holds, seen, namespace, gang)
  {
    SumCongruent(holds, PendingWeight(namespace, CountedSet(seen, gang)), holds, (u: string, h: Hold) =>
      if h.namespace == namespace && (u in seen ==> !seen[u].bound && (gang == "" || seen[u].gang != gang)) then h.bytes
      else 0);
    hide SumBy;
  }

  /** The checker passes exactly what is within the quota. */
  lemma QuotaWeighs(q: QuotaReads, seen: map<string, Listed>, c: CacheState, namespace: string, bytes: int)
    requires bytes > 0
    ensures QuotaPasses(q, seen, c, namespace, bytes) <==> WithinQuota(q, seen, c, namespace, bytes)
  {
    if q.Reads? {
      FirstForIsFirst(q.quotas, namespace);
      var gang := if q.gangSize > 0 then q.gangRef else "";
      UseIsListed(seen, gang);
      PendingIsUnlisted(c.assumed, seen, namespace, gang);
      PendingIsUnlisted(c.confirmed, seen, namespace, gang);
      hide SumBy, ListedUse, Unlisted, UsedWeight, PendingWeight, CountedSet, FirstFor;
      WholeGangAsked(q, bytes);
      GovernsOnce(q.quotas, namespace);
    }
  }

  lemma WholeGangAsked(q: QuotaReads, bytes: int)
    requires q.Reads? && bytes > 0
    ensures GangTotal(q, bytes) > 0 <==> q.gangRef != "" && q.gangSize > 0
    ensures q.gangRef != "" && q.gangSize > 0 ==> GangTotal(q, bytes) == q.gangSize * bytes
  {
  }

  lemma GovernsOnce(quotas: seq<Quota>, namespace: string)
    ensures forall i, j :: Governs(quotas, namespace, i) && Governs(quotas, namespace, j) ==> i == j
    ensures var i := FirstFor(quotas, namespace);
            if i < 0 then forall j :: !Governs(quotas, namespace, j) else Governs(quotas, namespace, i)
  {
    FirstForIsFirst(quotas, namespace);
    hide FirstFor;
  }

  datatype Result =
    | CacheNotReady
    | QuotaUnresolved
    | QuotaRejected
    | NoNode
    | PreemptionStarted(plan: Preemption.Plan)
    | ReserveFailed
    | GateFailed
    | GangWaiting
    | GangRejected
    | HoldLost
    | BindFailed
    | GangDeferred(node: string)
    | Bound(node: string)

  /** Two-phase commit handle of one speculative reservation. */
  class ReservationTx {
    const uid: string
    const namespace: string
    const node: string
    const bytes: int
    const cache: VRAMCache
    var confirmed: bool
    var held: bool

    constructor (cache: VRAMCache, uid: string, namespace: string, node: string, bytes: int)
      ensures this.cache == cache && this.uid == uid && this.namespace == namespace && this.node == node
      ensures this.bytes == bytes
      ensures !confirmed && !held
    {
      this.cache, this.uid, this.namespace, this.node, this.bytes := cache, uid, namespace, node, bytes;
      confirmed, held := false, false;
    }

    method Confirm(now: int) returns (rearmed: bool)
      modifies this, cache
      ensures confirmed && held == old(held)
      ensures rearmed == (uid !in old(cache.assumed))
      ensures cache.View() == VRAMCaches.Confirm(old(cache.View()), uid, namespace, node, bytes, now)
      ensures cache.seeded == old(cache.seeded)
    {
      confirmed := true;
      rearmed := cache.ConfirmSliceOrRearm(uid, namespace, node, bytes, now);
    }

    method MarkHeld()
      modifies this
      ensures held && confirmed == old(confirmed)
    {
      held := true;
    }

    method RollbackIfNotConfirmed()
      modifies cache
      ensures cache.View() == if confirmed || held then old(cache.View()) else Rollback(old(cache.View()), uid)
      ensures cache.seeded == old(cache.seeded)
    {
      if confirmed || held { return; }
      cache.RollbackAssumedSlice(uid);
    }
  }

  // ----- What a cycle may leave behind -----

  /** The cache `c` with the slice's bytes charged to `node` and its hold confirmed. */
  function WithConfirmed(c: CacheState, uid: string, h: Hold): CacheState {
    VRAMCaches.Reserve(c.(confirmed := c.confirmed[uid := h]), h.node, h.bytes)
  }

  function WithAssumed(c: CacheState, uid: string, h: Hold): CacheState {
    VRAMCaches.Reserve(c.(assumed := c.assumed[uid := h]), h.node, h.bytes)
  }

  /** A reservation given back leaves the cache exactly as it was. */
  lemma ReserveThenRollback(c: CacheState, uid: string, h: Hold)
    requires Core(c) && uid !in c.assumed && h.node in c.nodes && h.bytes > 0
    ensures Rollback(WithAssumed(c, uid, h), uid) == c
  {
    hide Core;
    SettledNode(c, h.node);
    var c' := Rollback(WithAssumed(c, uid, h), uid);
    assert c'.assumed == c.assumed;
    assert c'.nodes == c.nodes;
  }

  lemma SettledNode(c: CacheState, n: string)
    requires Core(c) && n in c.nodes
    ensures c.nodes[n].reserved >= 0 && Recalc(c.nodes[n]) == c.nodes[n]
  {
    hide SumBy;
    assert NodeOk(c, n);
    HoldSumBounds(c.assumed, n);
    HoldSumBounds(c.confirmed, n);
  }

  /** A hold given back and re-armed with the same bytes leaves every counter as it was. */
  lemma RollbackThenRearm(c: CacheState, uid: string, h: Hold)
    requires Core(c) && uid in c.assumed && c.assumed[uid].node == h.node && c.assumed[uid].bytes == h.bytes
    ensures WithConfirmed(Rollback(c, uid), uid, h)
         == c.(assumed := c.assumed - {uid}, confirmed := c.confirmed[uid := h])
  {
    hide Core, SlackKept;
    RollbackKeeps(c, uid);
    AssumedRegistered(c, uid);
    SettledNode(c, h.node);
    var c' := WithConfirmed(Rollback(c, uid), uid, h);
    assert c'.nodes == c.nodes;
  }

  lemma AssumedRegistered(c: CacheState, uid: string)
    requires Core(c) && uid in c.assumed
    ensures c.assumed[uid].node in c.nodes && c.assumed[uid].bytes > 0
  {
    hide NodeOk;
  }

  /** The hold a bound slice is confirmed with: its own, kept for half a minute from the pin, or a new one when the
      reaper took it while the bind call was in flight. */
  function BoundHold(h: Hold, namespace: string, env: Env): Hold {
    if env.reapedMidBind then Hold(namespace, h.node, h.bytes, env.confirmAt)
    else Hold(h.namespace, h.node, h.bytes, env.pinAt + 30 * SECOND)
  }

  /** How a cycle that holds `h` for the slice, in cache `c`, may end before its deferred rollback runs. */
  ghost predicate GateAndBindPost(c: CacheState, c': CacheState, uid: string, namespace: string, h: Hold,
      confirmed: bool, held: bool, r: Result, env: Env) {
    match r
    case Bound(node) =>
      && confirmed && node == h.node
      && c' == c.(assumed := c.assumed - {uid}, confirmed := c.confirmed[uid := BoundHold(h, namespace, env)])
    case GangDeferred(node) =>
      !confirmed && held && node == h.node && c' == if env.reapedAtGate then Rollback(c, uid) else c
    case _ =>
      !confirmed && !held && (c' == Rollback(c, uid) || exists e :: c' == Pin(c, uid, e))
          && Rollback(c', uid) == Rollback(c, uid)
  }

  lemma PinThenRollback(c: CacheState, uid: string, e: int)
    ensures Rollback(Pin(c, uid, e), uid) == Rollback(c, uid)
    ensures Rollback(Rollback(c, uid), uid) == Rollback(c, uid)
  {
    assert uid in c.assumed ==> c.assumed[uid := c.assumed[uid].(expires := e)] - {uid} == c.assumed - {uid};
    DropHoldFrame(c, uid, "");
  }

  /** The check of this transaction's slice. */
  function CallOf(tx: ReservationTx, env: Env): Call {
    env.call.(namespace := tx.namespace, slice := tx.uid, node := tx.node, bytes := tx.bytes)
  }

  /** What the gate in state `g` answers. */
  ghost function GateSays(g: GateState, wired: bool, sliceRead: bool, call: Call): GateReply {
    if !wired then NoGate
    else if !sliceRead then SliceUnread
    else if call.reservation != "" && call.reading.Unreadable? then GateError
    else Reply(GangGates.Check(g, call).verdict)
  }

  predicate GoesOn(reply: GateReply) {
    reply.NoGate? || reply == Reply(Allowed) || reply == Reply(NotApplicable)
  }

  /** How the cycle ends when it does not go on. */
  function EndOf(reply: GateReply, node: string): Result {
    match reply
    case SliceUnread => GateFailed
    case GateError => GateFailed
    case Reply(Deferred) => GangDeferred(node)
    case Reply(Rejected) => GangRejected
    case _ => GangWaiting
  }

  function StateOf(gate: GangBindingGate?): GateState
    reads gate
  {
    if gate == null then EmptyGate else GateState(gate.cohorts, gate.admitting, gate.admittingSince, gate.backoff)
  }

  /** The gate's say: whether the cycle goes on to bind, and otherwise how it ends. */
  method ConsultGate(tx: ReservationTx, gate: GangBindingGate?, env: Env) returns (go: bool, r: Result)
    requires gate != null ==> "" !in gate.cohorts
    modifies tx, gate
    ensures var g := old(StateOf(gate)); var reply := GateSays(g, gate != null, env.sliceRead, CallOf(tx, env));
            && go == GoesOn(reply)
            && tx.confirmed == old(tx.confirmed) && tx.held == (old(tx.held) || reply == Reply(Deferred))
            && StateOf(gate)
                == (if reply.NoGate? || reply.SliceUnread? then g else GangGates.Check(g, CallOf(tx, env)).gate)
            && r == EndOf(reply, tx.node)
  {
    r := GangWaiting;
    if gate == null { return true, r; }
    if !env.sliceRead { return false, GateFailed; }
    var call := CallOf(tx, env);
    hide GangGates.Check;
    assert gate.View() == StateOf(gate);
    var verdict := gate.CheckSliceWithCohort(call);
    assert gate.View() == StateOf(gate);
    if call.reservation != "" && call.reading.Unreadable? { return false, GateFailed; }
    match verdict {
      case Retry => return false, r;
      case Deferred => tx.MarkHeld(); return false, GangDeferred(tx.node);
      case Wait => return false, r;
      case Rejected => return false, GangRejected;
      case Allowed => return true, r;
      case NotApplicable => return true, r;
    }
  }

  /** How a cycle that holds the slice ends: bound only past a gate that allows it or does not concern it, and only if
      the hold outlived the gate and the bind call went through; deferred, rejected or waiting as the verdict says; and
      an unknown gang state never binds. */
  ghost predicate GateTells(g: GateState, g': GateState, wired: bool, call: Call, env: Env, r: Result) {
    var past := if env.reapedAtGate then HoldLost else if !env.bindOk then BindFailed else Bound(call.node);
    if !wired then g' == g && r == past
    else if !env.sliceRead then g' == g && r == GateFailed
    else
      && g' == GangGates.Check(g, call).gate
      && if call.reservation != "" && call.reading.Unreadable? then r == GateFailed
         else match GangGates.Check(g, call).verdict
           case Allowed => r == past
           case NotApplicable => r == past
           case Deferred => r == GangDeferred(call.node)
           case Rejected => r == GangRejected
           case Wait => r == GangWaiting
           case Retry => r == GangWaiting
  }

  /** No cycle that reached the gate ends so. */
  predicate Unreserved(r: Result) {
    r.CacheNotReady? || r.QuotaUnresolved? || r.QuotaRejected? || r.NoNode? || r.PreemptionStarted? || r.ReserveFailed?
  }

  /** The check of the slice on `node`. */
  function CheckOn(env: Env, uid: string, namespace: string, node: string, bytes: int): Call {
    env.call.(namespace := namespace, slice := uid, node := node, bytes := bytes)
  }

  /** Pin the hold, bind, confirm. `c` is the cache before the gate was consulted, `h` the hold in it. */
  method PinAndBind(tx: ReservationTx, env: Env, ghost c: CacheState, ghost h: Hold) returns (r: Result)
    requires Core(c) && tx.uid in c.assumed && h == c.assumed[tx.uid] && !tx.confirmed && !tx.held
    requires h.node == tx.node && h.bytes == tx.bytes && tx.cache.View() == if env.reapedAtGate then
        Rollback(c, tx.uid) else c
    modifies tx, tx.cache
    ensures tx.cache.seeded == old(tx.cache.seeded)
    ensures GateAndBindPost(c, tx.cache.View(), tx.uid, tx.namespace, h, tx.confirmed, tx.held, r, env)
    ensures r == if env.reapedAtGate then HoldLost else if !env.bindOk then BindFailed else Bound(tx.node)
  {
    var e := env.pinAt + BIND_PIN_TTL;
    PinOutcomes(c, tx.uid, tx.namespace, h, env);
    hide Core, VRAMCaches.Confirm, Rollback, GateAndBindPost, Pin;
    var _, _, ok := tx.cache.PinAssumption(tx.uid, e);
    if !ok { return HoldLost; }
    if !env.bindOk { return BindFailed; }
    if env.reapedMidBind { tx.cache.RollbackAssumedSlice(tx.uid); }
    var _ := tx.Confirm(env.confirmAt);
    return Bound(tx.node);
  }

  /** Where a cycle that the gate lets through can end. */
  lemma PinOutcomes(c: CacheState, uid: string, namespace: string, h: Hold, env: Env)
    requires Core(c) && uid in c.assumed && h == c.assumed[uid]
    ensures uid !in Rollback(c, uid).assumed && Pin(Rollback(c, uid), uid, env.pinAt + BIND_PIN_TTL) == Rollback(c, uid)
    ensures GateAndBindPost(c, Rollback(c, uid), uid, namespace, h, false, false, HoldLost, env)
    ensures GateAndBindPost(c, Pin(c, uid, env.pinAt + BIND_PIN_TTL), uid, namespace, h, false, false, BindFailed, env)
    ensures var pinned := Pin(c, uid, env.pinAt + BIND_PIN_TTL);
            var before := if env.reapedMidBind then Rollback(pinned, uid) else pinned;
            var done := VRAMCaches.Confirm(before, uid, namespace, h.node, h.bytes, env.confirmAt);
            GateAndBindPost(c, done, uid, namespace, h, true, false, Bound(h.node), env)
  {
    var e := env.pinAt + BIND_PIN_TTL;
    hide Core, VRAMCaches.Confirm, Rollback, Pin;
    DropHoldFrame(c, uid, "");
    PinAbsent(Rollback(c, uid), uid, e);
    PinThenRollback(c, uid, e);
    ConfirmAfterPin(c, uid, namespace, h, e, env.confirmAt);
  }

  /** A refusal leaves the hold, perhaps pinned or reaped, to the deferred rollback. */
  lemma RefusedPost(c: CacheState, uid: string, namespace: string, h: Hold, e: int, r: Result, env: Env)
    requires !r.Bound? && !r.GangDeferred?
    ensures GateAndBindPost(c, Rollback(c, uid), uid, namespace, h, false, false, r, env)
    ensures GateAndBindPost(c, Pin(c, uid, e), uid, namespace, h, false, false, r, env)
  {
    PinThenRollback(c, uid, e);
    hide Rollback, Pin;
  }

  /** The reaper may take the hold while the gate is consulted, whatever the gate then says. */
  method GateAndBind(tx: ReservationTx, gate: GangBindingGate?, env: Env) returns (r: Result)
    requires Core(tx.cache.View()) && tx.uid in tx.cache.assumed && !tx.confirmed && !tx.held
    requires tx.cache.assumed[tx.uid].node == tx.node && tx.cache.assumed[tx.uid].bytes == tx.bytes
    requires gate != null ==> "" !in gate.cohorts
    modifies tx, tx.cache, gate
    ensures tx.cache.seeded == old(tx.cache.seeded)
    ensures GateAndBindPost(old(tx.cache.View()), tx.cache.View(), tx.uid, tx.namespace, old(tx.cache.assumed[tx.uid]),
                            tx.confirmed, tx.held, r, env)
    ensures GateTells(old(StateOf(gate)), StateOf(gate), gate != null, CallOf(tx, env), env, r) && !Unreserved(r)
  {
    ghost var c, h := tx.cache.View(), tx.cache.assumed[tx.uid];
    SamePin(c, tx.uid);
    hide Core, Rollback, Pin, GangGates.Check, GateAndBindPost, GateTells, GateSays, StateOf, Unreserved;
    var go;
    go, r := ConsultGate(tx, gate, env);
    ghost var said := r;
    if env.reapedAtGate { tx.cache.RollbackAssumedSlice(tx.uid); }
    if go {
      r := PinAndBind(tx, env, c, h);
    } else {
      WaitPost(c, tx.uid, tx.namespace, h, tx.held, r, env);
    }
    ToldOfGate(old(StateOf(gate)), StateOf(gate), gate != null, tx, env, said, r);
  }

  lemma WaitPost(c: CacheState, uid: string, namespace: string, h: Hold, held: bool, r: Result, env: Env)
    requires Pin(c, uid, h.expires) == c && !r.Bound? && (if held then r == GangDeferred(h.node) else !r.GangDeferred?)
    ensures GateAndBindPost(c, if env.reapedAtGate then Rollback(c, uid) else c, uid, namespace, h, false, held, r, env)
  {
    if !held { RefusedPost(c, uid, namespace, h, h.expires, r, env); }
    hide Rollback, Pin;
  }

  /** What the gate said, `said`, and how the cycle then ended. */
  lemma ToldOfGate(g: GateState, g': GateState, wired: bool, tx: ReservationTx, env: Env, said: Result, r: Result)
    requires var reply := GateSays(g, wired, env.sliceRead, CallOf(tx, env));
             && g' == (if reply.NoGate? || reply.SliceUnread? then g else GangGates.Check(g, CallOf(tx, env)).gate)
             && said == EndOf(reply, tx.node)
             && r == if !GoesOn(reply) then said
                     else if env.reapedAtGate then HoldLost else if !env.bindOk then BindFailed else Bound(tx.node)
    ensures GateTells(g, g', wired, CallOf(tx, env), env, r) && !Unreserved(r)
  {
    hide GangGates.Check;
  }

  lemma SamePin(c: CacheState, uid: string)
    requires uid in c.assumed
    ensures Pin(c, uid, c.assumed[uid].expires) == c
  {
    assert c.assumed[uid := c.assumed[uid].(expires := c.assumed[uid].expires)] == c.assumed;
  }

  lemma PinAbsent(c: CacheState, uid: string, e: int)
    requires uid !in c.assumed
    ensures Pin(c, uid, e) == c
  {
  }

  /** Confirming a pinned hold, whether or not the reaper took it in between. */
  lemma ConfirmAfterPin(c: CacheState, uid: string, namespace: string, h: Hold, e: int, now: int)
    requires Core(c) && uid in c.assumed && h == c.assumed[uid]
    ensures VRAMCaches.Confirm(Pin(c, uid, e), uid, namespace, h.node, h.bytes, now)
         == c.(assumed := c.assumed - {uid}, confirmed := c.confirmed[uid := Hold(h.namespace, h.node, h.bytes, e)])
    ensures VRAMCaches.Confirm(Rollback(Pin(c, uid, e), uid), uid, namespace, h.node, h.bytes, now)
         == c.(assumed := c.assumed - {uid}, confirmed := c.confirmed[uid := Hold(namespace, h.node, h.bytes, now)])
  {
    assert c.assumed[uid := h.(expires := e)] - {uid} == c.assumed - {uid};
    PinThenRollback(c, uid, e);
    RollbackThenRearm(c, uid, Hold(namespace, h.node, h.bytes, now));
    DropHoldFrame(c, uid, "");
    hide Core, Rollback;
  }

  /** Nodes that pass the filter, in whatever order the node map is walked. */
  method Filter(cache: VRAMCache, bytes: int) returns (valid: seq<string>)
    ensures forall n :: n in valid <==> n in cache.nodes && cache.nodes[n].healthy && bytes <= cache.nodes[n].free
  {
    valid := [];
    var todo := cache.nodes.Keys;
    while todo != {}
      invariant todo <= cache.nodes.Keys
      invariant forall n :: n in valid <==>
                              n in cache.nodes.Keys - todo && cache.nodes[n].healthy && bytes <= cache.nodes[n].free
      decreases todo
    {
      var n :| n in todo;
      var fits := cache.CanFit(n, bytes);
      if fits { valid := valid + [n]; }
      todo := todo - {n};
    }
  }

  /** What a whole cycle leaves in the cache. */
  ghost predicate Transaction(c: CacheState, c': CacheState, uid: string, namespace: string, bytes: int, r: Result,
      env: Env) {
    if r.CacheNotReady? || r.QuotaUnresolved? || r.QuotaRejected? then c' == c
    else if uid !in c.assumed then
      match r
      case Bound(node) =>
        && node in c.nodes
        && c' == WithConfirmed(c, uid, BoundHold(Hold(namespace, node, bytes, 0), namespace, env))
      case GangDeferred(node) =>
        && node in c.nodes
        && c' == if env.reapedAtGate then c
                 else WithAssumed(c, uid, Hold(namespace, node, bytes, env.reserveAt + 30 * SECOND))
      case _ => c' == c
    else
      var h := c.assumed[uid];
      match r
      case Bound(node) =>
        && node == h.node
        && c' == c.(assumed := c.assumed - {uid}, confirmed := c.confirmed[uid := BoundHold(h, namespace, env)])
      case GangDeferred(node) =>
        && node == h.node
        && c' == if env.reapedAtGate then Rollback(c, uid)
                 else c.(assumed := c.assumed[uid := h.(expires := env.reserveAt + 50 * SECOND)])
      case _ => c' == Rollback(c, uid)
  }

  /** A fresh cycle's reservation followed by any end of GateAndBind and the deferred rollback. */
  lemma FreshCycle(c: CacheState, c1: CacheState, c2: CacheState, uid: string, namespace: string, h: Hold,
      confirmed: bool, held: bool, r: Result, env: Env)
    requires Core(c) && uid !in c.assumed && uid !in c.confirmed && h.node in c.nodes && h.bytes > 0
    requires h.namespace == namespace && h.expires == env.reserveAt + RESERVE_TTL
    requires c1 == WithAssumed(c, uid, h) && GateAndBindPost(c1, c2, uid, namespace, h, confirmed, held, r, env)
    requires !r.CacheNotReady? && !r.QuotaUnresolved? && !r.QuotaRejected?
    ensures Transaction(c, if confirmed || held then c2 else Rollback(c2, uid), uid, namespace, h.bytes, r, env)
  {
    hide Core;
    ReserveThenRollback(c, uid, h);
    hide Rollback, Recalc;
    if r.Bound? {
      assert c1.assumed - {uid} == c.assumed;
      assert c2 == WithConfirmed(c, uid, BoundHold(h, namespace, env));
    }
  }

  /** A fast-forward cycle: pinned, then any end of GateAndBind and the deferred rollback. */
  lemma HeldCycle(c: CacheState, c1: CacheState, c2: CacheState, uid: string, namespace: string, bytes: int,
      confirmed: bool, held: bool, r: Result, env: Env)
    requires uid in c.assumed && c1 == Pin(c, uid, env.reserveAt + GANG_HOLD_TTL)
    requires GateAndBindPost(c1, c2, uid, namespace, c1.assumed[uid], confirmed, held, r, env)
    requires !r.CacheNotReady? && !r.QuotaUnresolved? && !r.QuotaRejected?
    ensures Transaction(c, if confirmed || held then c2 else Rollback(c2, uid), uid, namespace, bytes, r, env)
  {
    PinThenRollback(c, uid, env.reserveAt + GANG_HOLD_TTL);
    hide Rollback;
    assert c1.assumed - {uid} == c.assumed - {uid};
  }

  predicate HasRoomFor(n: NodeState, bytes: int) {
    n.healthy && bytes <= n.free
  }

  /** Whether the node map has no room for the slice. */
  predicate NoRoom(c: CacheState, bytes: int) {
    forall n :: n in c.nodes ==> !HasRoomFor(c.nodes[n], bytes)
  }

  /** A node with room, and none with room costs less. */
  predicate BestNode(c: CacheState, node: string, bytes: int, zone: string) {
    && node in c.nodes && HasRoomFor(c.nodes[node], bytes)
    && forall n :: n in c.nodes && HasRoomFor(c.nodes[n], bytes) ==>
         Cost(c.nodes[node], bytes, zone) <= Cost(c.nodes[n], bytes, zone)
  }

  /** How a cycle ends that the quota let through. A hold from an earlier cycle goes straight to the gate; without one
      the slice is reserved on a best node, or preempts when there is no room. */
  ghost predicate Ends(c: CacheState, g: GateState, g': GateState, wired: bool, uid: string, namespace: string,
      bytes: int, zone: string, env: Env, r: Result) {
    if uid in c.assumed then
      GateTells(g, g', wired, CheckOn(env, uid, namespace, c.assumed[uid].node, c.assumed[uid].bytes), env, r)
    else if NoRoom(c, bytes) then g' == g && Preempts(env.preemption, bytes, r)
    else if uid in c.confirmed then g' == g && r == ReserveFailed
    else
      exists node :: BestNode(c, node, bytes, zone)
          && GateTells(g, g', wired, CheckOn(env, uid, namespace, node, bytes),
                                                                 env, r)
  }

  /** A preemption starts exactly for a solo slice whose eligible victims together free enough and could be marked. */
  ghost predicate Preempts(p: PreemptionReads, bytes: int, r: Result) {
    if p.NoPreemptor? || p.gangMember || !p.listed || !p.marked then r == NoNode
    else
      var eligible := Preemption.EligibleOf(p.listing, p.requester, p.priority);
      if Preemption.Total(eligible) < bytes then r == NoNode
      else r.PreemptionStarted? && Preemption.Chosen(eligible, bytes, r.plan) && r.plan.freed >= bytes
  }

  /** One cycle, decided in every case: by the warm-up, by the quota, by the hold of an earlier cycle, by the nodes or
      by the gate. Success leaves the slice confirmed with its bytes, a gang deferral leaves it assumed unless the
      reaper took it, every other return after a fresh reserve leaves holds and counters exactly as before, and a failed
      fast-forward gives back the caller's hold and nothing else. */
  method Schedule(cache: VRAMCache, gate: GangBindingGate?, uid: string, namespace: string, bytes: int,
      bestEffort: bool, zone: string, env: Env, ghost seen: map<string, Listed>)
    returns (r: Result)
    requires Core(cache.View()) && bytes > 0 && (gate != null ==> "" !in gate.cohorts)
    requires env.quota.Reads? ==> ListsAll(env.quota.items, seen)
    modifies cache, gate
    ensures cache.seeded == old(cache.seeded)
    ensures Transaction(old(cache.View()), cache.View(), uid, namespace, bytes, r, env)
    ensures if !cache.seeded then r == CacheNotReady && StateOf(gate) == old(StateOf(gate))
            else if env.quota.ContextUnread? then r == QuotaUnresolved && StateOf(gate) == old(StateOf(gate))
            else if !WithinQuota(env.quota, seen, old(cache.View()), namespace, bytes) then
              r == QuotaRejected && StateOf(gate) == old(StateOf(gate))
            else Ends(old(cache.View()), old(StateOf(gate)), StateOf(gate), gate != null, uid, namespace, bytes, zone,
                      env, r)
  {
    ghost var c := cache.View();
    QuotaWeighs(env.quota, seen, c, namespace, bytes);
    hide Core, Transaction, Passes, WithinQuota, Ends, StateOf, Pin;
    if !cache.seeded {
      ClosedCycle(c, uid, namespace, bytes, env, CacheNotReady);
      return CacheNotReady;
    }
    if env.quota.ContextUnread? {
      ClosedCycle(c, uid, namespace, bytes, env, QuotaUnresolved);
      return QuotaUnresolved;
    }
    if env.quota.Reads? {
      var q := env.quota;
      var admitted :=
          Quotas.Check(cache, q.quotasListed, q.quotas, q.slicesListed, q.items, seen, namespace, bytes, q.gangRef,
          GangTotal(q, bytes));
      if !admitted {
        ClosedCycle(c, uid, namespace, bytes, env, QuotaRejected);
        return QuotaRejected;
      }
    }
    var heldNode, heldBytes, ok := cache.PinAssumption(uid, env.reserveAt + GANG_HOLD_TTL);
    if ok {
      PinKeeps(c, uid, env.reserveAt + GANG_HOLD_TTL);
      r := FastForward(cache, gate, uid, namespace, heldNode, heldBytes, env, c, bytes, zone);
    } else {
      PinAbsent(c, uid, env.reserveAt + GANG_HOLD_TTL);
      r := FreshAttempt(cache, gate, uid, namespace, bytes, bestEffort, zone, env);
    }
  }

  lemma ClosedCycle(c: CacheState, uid: string, namespace: string, bytes: int, env: Env, r: Result)
    requires Unreserved(r) && (uid !in c.assumed || r.CacheNotReady? || r.QuotaUnresolved? || r.QuotaRejected?)
    ensures Transaction(c, c, uid, namespace, bytes, r, env)
  {
  }

  /** The gate and bind of a hold that survived from an earlier cycle. */
  method FastForward(cache: VRAMCache, gate: GangBindingGate?, uid: string, namespace: string, node: string,
      bytes: int, env: Env, ghost c: CacheState, ghost requested: int, ghost zone: string)
    returns (r: Result)
    requires Core(cache.View()) && uid in c.assumed && cache.View() == Pin(c, uid, env.reserveAt + GANG_HOLD_TTL)
    requires (gate != null ==> "" !in gate.cohorts)
    requires node == c.assumed[uid].node && bytes == c.assumed[uid].bytes
    modifies cache, gate
    ensures cache.seeded == old(cache.seeded)
    ensures Transaction(c, cache.View(), uid, namespace, requested, r, env)
    ensures Ends(c, old(StateOf(gate)), StateOf(gate), gate != null, uid, namespace, requested, zone, env, r)
    ensures !Unreserved(r)
  {
    var tx := new ReservationTx(cache, uid, namespace, node, bytes);
    hide Core, Rollback, GateTells, StateOf;
    r := GateAndBind(tx, gate, env);
    ghost var c2 := cache.View();
    HeldCycle(c, Pin(c, uid, env.reserveAt + GANG_HOLD_TTL), c2, uid, namespace, requested, tx.confirmed, tx.held, r,
              env);
    hide Transaction;
    tx.RollbackIfNotConfirmed();
  }

  /** Filter, score, reserve, then gate and bind; without room, perhaps a preemption. */
  method FreshAttempt(cache: VRAMCache, gate: GangBindingGate?, uid: string, namespace: string, bytes: int,
      bestEffort: bool, zone: string, env: Env)
    returns (r: Result)
    requires Core(cache.View()) && bytes > 0 && uid !in cache.assumed && (gate != null ==> "" !in gate.cohorts)
    modifies cache, gate
    ensures cache.seeded == old(cache.seeded)
    ensures Transaction(old(cache.View()), cache.View(), uid, namespace, bytes, r, env)
    ensures Ends(old(cache.View()), old(StateOf(gate)), StateOf(gate), gate != null, uid, namespace, bytes, zone, env,
        r)
    ensures !r.CacheNotReady? && !r.QuotaUnresolved? && !r.QuotaRejected?
  {
    ghost var c, g := cache.View(), StateOf(gate);
    hide Core, Transaction, StateOf, GateTells, Preempts;
    var valid := Filter(cache, bytes);
    if valid == [] {
      assert forall n :: n in cache.nodes ==> n !in valid;
      r := TryPreemption(env.preemption, bytes);
      ClosedCycle(c, uid, namespace, bytes, env, r);
      return;
    }
    assert valid[0] in valid && HasRoomFor(c.nodes[valid[0]], bytes);
    var node := PickNode(cache, valid, bytes, bestEffort, zone);
    hide BestNode;
    var reserved := cache.AssumeSlice(uid, namespace, node, bytes, env.reserveAt + RESERVE_TTL);
    if reserved != Assumed {
      ClosedCycle(c, uid, namespace, bytes, env, ReserveFailed);
      return ReserveFailed;
    }
    ghost var h := Hold(namespace, node, bytes, env.reserveAt + RESERVE_TTL);
    AssumeKeeps(c, uid, namespace, node, bytes, h.expires);
    assert cache.View() == WithAssumed(c, uid, h);
    r := BindReserved(cache, gate, uid, namespace, node, bytes, env, c, h);
  }

  /** The first of the scores; the filter left a node, so there is one. */
  method PickNode(cache: VRAMCache, valid: seq<string>, bytes: int, bestEffort: bool, zone: string)
    returns (node: string)
    requires valid != []
    requires forall n :: n in valid <==> n in cache.nodes && cache.nodes[n].healthy && bytes <= cache.nodes[n].free
    ensures BestNode(cache.View(), node, bytes, zone)
  {
    var scores := ScoreWithTopology(cache, valid, bytes, bestEffort, zone);
    assert ScoreOf(cache.nodes, valid[0], bytes, bestEffort, zone) in scores;
    assert scores[0] in scores;
    node := scores[0].node;
    hide ScoreOf;
    forall n | n in cache.nodes && HasRoomFor(cache.nodes[n], bytes)
      ensures Cost(cache.nodes[node], bytes, zone) <= Cost(cache.nodes[n], bytes, zone)
    {
      assert n in valid;
      var i :| 0 <= i < |valid| && valid[i] == n;
      assert ScoreOf(cache.nodes, valid[i], bytes, bestEffort, zone) in scores;
    }
  }

  method TryPreemption(p: PreemptionReads, bytes: int) returns (r: Result)
    requires bytes > 0
    ensures Preempts(p, bytes, r) && (r.NoNode? || r.PreemptionStarted?)
  {
    if p.NoPreemptor? || p.gangMember || !p.listed { return NoNode; }
    hide Preemption.Chosen;
    var plan := Preemption.PlanPreemption(p.listing, p.requester, p.priority, bytes);
    if plan.None? || !p.marked { return NoNode; }
    Preemption.PlanIsFrugal(Preemption.EligibleOf(p.listing, p.requester, p.priority), bytes, plan.value);
    r := PreemptionStarted(plan.value);
  }

  /** The gate and bind of a reservation just made, with its deferred rollback. */
  method BindReserved(cache: VRAMCache, gate: GangBindingGate?, uid: string, namespace: string, node: string,
      bytes: int, env: Env, ghost c: CacheState, ghost h: Hold)
    returns (r: Result)
    requires Core(c) && Core(cache.View()) && cache.View() == WithAssumed(c, uid, h)
    requires (gate != null ==> "" !in gate.cohorts)
    requires uid !in c.assumed && uid !in c.confirmed && node in c.nodes && bytes > 0
    requires h == Hold(namespace, node, bytes, env.reserveAt + RESERVE_TTL)
    modifies cache, gate
    ensures cache.seeded == old(cache.seeded)
    ensures Transaction(c, cache.View(), uid, namespace, bytes, r, env)
    ensures GateTells(old(StateOf(gate)), StateOf(gate), gate != null, CheckOn(env, uid, namespace, node, bytes), env,
        r)
    ensures !Unreserved(r)
  {
    var tx := new ReservationTx(cache, uid, namespace, node, bytes);
    assert uid in cache.assumed && cache.assumed[uid] == h;
    hide Core, Rollback, WithAssumed, GateTells, StateOf;
    r := GateAndBind(tx, gate, env);
    FreshCycle(c, WithAssumed(c, uid, h), cache.View(), uid, namespace, h, tx.confirmed, tx.held, r, env);
    hide Transaction;
    tx.RollbackIfNotConfirmed();
  }
}
