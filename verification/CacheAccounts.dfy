/**
 * What the cache implements: accounts that say whose bytes are where, with no counter at all. A guarded call does
 * to the accounts the plain thing, slice by slice, and every counter is the sum the accounts give.
 */
module CacheAccounts {
  import opened Sums
  import opened VRAMCaches
  import opened CacheConservation

  datatype Grant = Grant(node: string, bytes: int)

  /** `outside`: bytes the node reports in use that no slice accounts for. */
  datatype Site = Site(total: int, outside: int, healthy: bool, zone: string)

  datatype Accounts = Accounts(assumed: map<string, Hold>, confirmed: map<string, Hold>, grants: map<string, Grant>,
      marks: map<string, Mark>, sites: map<string, Site>)

  ghost function HeldOn(holds: map<string, Hold>, node: string): int {
    SumBy(holds, (u: string, h: Hold) => if h.node == node then h.bytes else 0)
  }

  ghost function GrantedOn(grants: map<string, Grant>, node: string): int {
    SumBy(grants, (u: string, g: Grant) => if g.node == node then g.bytes else 0)
  }

  /** Bytes in use on a node, by the accounts. */
  ghost function InUse(a: Accounts, node: string): int
    requires node in a.sites
  {
    a.sites[node].outside + GrantedOn(a.grants, node)
  }

  ghost function Unused(a: Accounts, node: string): int
    requires node in a.sites
  {
    a.sites[node].total - InUse(a, node) - HeldOn(a.assumed, node) - HeldOn(a.confirmed, node)
  }

  function GrantsOf(bytes: map<string, int>, nodes: map<string, string>): map<string, Grant> {
    map u | u in bytes && u in nodes :: Grant(nodes[u], bytes[u])
  }

  ghost function SitesOf(c: CacheState): map<string, Site> {
    map n | n in c.nodes :: SiteOf(c.nodes[n], Slack(c, n))
  }

  function SiteOf(n: NodeState, outside: int): Site {
    Site(n.total, outside, n.healthy, n.zone)
  }

  ghost function AccountsOf(c: CacheState): Accounts {
    Accounts(c.assumed, c.confirmed, GrantsOf(c.allocBytes, c.allocNode), c.synced, SitesOf(c))
  }

  // ----- What each call does, in plain terms -----

  ghost function Act(a: Accounts, op: Op): Accounts {
    match op
    case OpAssume(u, ns, n, b, e) =>
      if u !in a.assumed && u !in a.confirmed && n in a.sites && a.sites[n].healthy && b <= Unused(a, n)
      then a.(assumed := a.assumed[u := Hold(ns, n, b, e)])
      else a
    case OpConfirm(u, ns, n, b, now) =>
      a.(assumed := a.assumed - {u},
         confirmed := a.confirmed[u := if u in a.assumed then a.assumed[u] else Hold(ns, n, b, now)])
    case OpPromote(u, n, b) =>
      if u in a.grants then a
      else a.(confirmed := a.confirmed - {u}, grants := a.grants[u := Grant(n, b)], marks := a.marks[u := MarkReady])
    case OpRelease(u, _) =>
      if u in a.grants || (u in a.marks && a.marks[u] == MarkFailed)
      then a.(grants := a.grants - {u}, marks := a.marks[u := MarkReleased])
      else a
    case OpFail(u, _) =>
      if u in a.grants || (u in a.confirmed && u !in a.marks)
      then a.(grants := a.grants - {u}, confirmed := a.confirmed - {u}, marks := a.marks[u := MarkFailed])
      else a
    case OpForget(u, _) =>
      a.(assumed := a.assumed - {u}, confirmed := a.confirmed - {u}, grants := a.grants - {u}, marks := a.marks - {u})
    case OpRollback(u) => a.(assumed := a.assumed - {u})
    case OpReleaseConfirmed(u) => a.(confirmed := a.confirmed - {u})
    case OpPin(u, e) =>
      if u in a.assumed then a.(assumed := a.assumed[u := a.assumed[u].(expires := e)]) else a
    case OpReap(order) => a.(assumed := a.assumed - (set u | u in order))
    case OpUpdateNode(n, total, reported) => a.(sites := a.sites[n := Reported(a, n, total, reported)])
    case OpRemoveNode(n) =>
      if n !in a.sites then a else
      var gone := set u | u in a.grants && a.grants[u].node == n;
      Accounts(map u | u in a.assumed && a.assumed[u].node != n :: a.assumed[u],
               map u | u in a.confirmed && a.confirmed[u].node != n :: a.confirmed[u],
               a.grants - gone, a.marks - gone, a.sites - {n})
    case OpSetHealth(n, h) => if n in a.sites then a.(sites := a.sites[n := a.sites[n].(healthy := h)]) else a
    case OpSetZone(n, z) =>
      a.(sites := a.sites[n := (if n in a.sites then a.sites[n] else Site(0, 0, true, "")).(zone := z)])
  }

  /** A report sets the total, and whatever it names beyond the bytes in use is outside use. */
  ghost function Reported(a: Accounts, n: string, total: int, reported: int): Site {
    if n !in a.sites then Site(total, if reported > 0 then reported else 0, true, "")
    else
      var more := reported - InUse(a, n);
      Site(total, a.sites[n].outside + (if more > 0 then more else 0), a.sites[n].healthy, a.sites[n].zone)
  }

  // ----- The counters are the accounts' sums -----

  lemma GrantsAreLedger(c: CacheState, n: string)
    requires c.allocBytes.Keys == c.allocNode.Keys
    ensures GrantedOn(AccountsOf(c).grants, n) == LedgerSum(c, n)
  {
    SumCongruent(GrantsOf(c.allocBytes, c.allocNode), (u: string, g: Grant) => if g.node == n then g.bytes else 0,
                 c.allocBytes, LedgerWeight(c.allocNode, n));
    hide SumBy, Slack;
  }

  lemma HoldsAreSums(holds: map<string, Hold>, n: string)
    ensures HeldOn(holds, n) == HoldSum(holds, n)
  {
    SumCongruent(holds, (u: string, h: Hold) => if h.node == n then h.bytes else 0, holds, HoldWeight(n));
    hide SumBy;
  }

  /** What a node's counters say, in terms of whose bytes are on it. */
  lemma CountersAreSums(c: CacheState, n: string)
    requires Core(c) && n in c.nodes
    ensures var a := AccountsOf(c);
            && c.nodes[n].granted == InUse(a, n)
            && c.nodes[n].reserved == HeldOn(a.assumed, n) + HeldOn(a.confirmed, n)
            && c.nodes[n].free == (if Unused(a, n) < 0 then 0 else Unused(a, n))
  {
    assert NodeOk(c, n);
    GrantsAreLedger(c, n);
    HoldsAreSums(c.assumed, n);
    HoldsAreSums(c.confirmed, n);
    hide SumBy, GrantedOn, HeldOn, HoldSum, LedgerSum;
  }

  // ----- Each call follows its account -----

  /** Same nodes with the same total, health and zone. */
  ghost predicate SameSites(c: CacheState, c': CacheState) {
    c'.nodes.Keys == c.nodes.Keys && forall n :: n in c.nodes ==> SameSite(c.nodes[n], c'.nodes[n])
  }

  predicate SameSite(n: NodeState, n': NodeState) {
    n'.total == n.total && n'.healthy == n.healthy && n'.zone == n.zone
  }

  lemma SitesKept(c: CacheState, c': CacheState)
    requires SameSites(c, c') && SlackKept(c, c')
    ensures SitesOf(c') == SitesOf(c)
  {
    hide Slack;
  }

  lemma GrantDropped(bytes: map<string, int>, nodes: map<string, string>, gone: set<string>)
    ensures GrantsOf(bytes - gone, nodes - gone) == GrantsOf(bytes, nodes) - gone
  {
  }

  lemma GrantAdded(bytes: map<string, int>, nodes: map<string, string>, u: string, b: int, n: string)
    ensures GrantsOf(bytes[u := b], nodes[u := n]) == GrantsOf(bytes, nodes)[u := Grant(n, b)]
  {
  }

  lemma RecalcSites(c: CacheState, n: string, s: NodeState)
    requires n in c.nodes && SameSite(c.nodes[n], s)
    ensures SameSites(c, c.(nodes := c.nodes[n := Recalc(s)]))
  {
  }

  lemma CountersKeepSites(c: CacheState, n: string, b: int)
    ensures SameSites(c, Reserve(c, n, b)) && SameSites(c, Unreserve(c, n, b)) && SameSites(c, FreeAllocated(c, n, b))
  {
    hide Recalc, Floor0;
    if n in c.nodes {
      var s := c.nodes[n];
      RecalcSites(c, n, s.(reserved := s.reserved + b));
      RecalcSites(c, n, s.(reserved := Floor0(s.reserved - b)));
      RecalcSites(c, n, s.(granted := Floor0(s.granted - b)));
      hide SameSites;
    }
  }

  lemma DropsKeepSites(c: CacheState, u: string)
    ensures SameSites(c, Rollback(c, u)) && SameSites(c, ReleaseConfirmed(c, u))
  {
    if u in c.assumed { CountersKeepSites(c, c.assumed[u].node, c.assumed[u].bytes); }
    if u in c.confirmed { CountersKeepSites(c, c.confirmed[u].node, c.confirmed[u].bytes); }
    hide Unreserve;
  }

  lemma SitesCompose(a: CacheState, b: CacheState, c: CacheState)
    requires SameSites(a, b) && SameSites(b, c)
    ensures SameSites(a, c)
  {
  }

  lemma NodesAreSites(a: CacheState, b: CacheState, c: CacheState)
    requires a.nodes == b.nodes && SameSites(b, c)
    ensures SameSites(a, c)
  {
  }

  lemma ReleaseKeepsSites(c: CacheState, u: string, n: string)
    ensures SameSites(c, Release(c, u, n))
  {
    var r := ReleaseBegin(c, u);
    CountersKeepSites(r, n, LedgerBytes(c, u));
    NodesAreSites(c, r, FreeAllocated(r, n, LedgerBytes(c, u)));
    NodesAreSites(c, c, c);
    hide FreeAllocated, LedgerBytes, SameSites;
  }

  lemma FailKeepsSites(c: CacheState, u: string, n: string)
    ensures SameSites(c, Fail(c, u, n))
  {
    var f, b := FailBegin(c, u), LedgerBytes(c, u);
    var g := FreeAllocated(f, n, b);
    CountersKeepSites(f, n, b);
    DropsKeepSites(f, u);
    DropsKeepSites(g, u);
    SitesCompose(f, g, ReleaseConfirmed(g, u));
    NodesAreSites(c, f, ReleaseConfirmed(g, u));
    NodesAreSites(c, f, ReleaseConfirmed(f, u));
    hide FreeAllocated, ReleaseConfirmed, LedgerBytes, FailBegin;
  }

  lemma ForgetKeepsSites(c: CacheState, u: string, n: string)
    ensures SameSites(c, Forget(c, u, n))
  {
    var c1 := Rollback(c, u);
    var c2 := ReleaseConfirmed(c1, u);
    DropsKeepSites(c, u);
    DropsKeepSites(c1, u);
    ReleaseKeepsSites(c2, u, n);
    hide Rollback, ReleaseConfirmed, Release;
  }

  lemma {:induction false} ReapKeepsSites(c: CacheState, order: seq<string>)
    ensures SameSites(c, RollbackAll(c, order))
    decreases |order|
  {
    if order != [] {
      ReapKeepsSites(c, order[..|order| - 1]);
      DropsKeepSites(RollbackAll(c, order[..|order| - 1]), order[|order| - 1]);
      hide Rollback;
    }
  }

  /** A guarded call changes the accounts as told, whatever it does to the counters. */
  lemma AccountsFollow(c: CacheState, op: Op)
    requires Books(c) && Guard(c, op)
    ensures AccountsOf(Step(c, op)) == Act(AccountsOf(c), op)
  {
    GuardedStepCore(c, op);
    hide Core, Marks, Guard, Act, AccountsOf, Slack, Assume, Confirm, Promote, Release, Fail, Forget, Rollback,
         ReleaseConfirmed, RollbackAll, UpdateNode, RemoveNode, SetHealth, SetZone, Pin;
    match op
    case OpAssume(u, ns, n, b, e) => FollowAssume(c, u, ns, n, b, e);
    case OpConfirm(u, ns, n, b, now) => FollowConfirm(c, u, ns, n, b, now);
    case OpPromote(u, n, b) => FollowPromote(c, op);
    case OpRelease(u, n) => FollowRelease(c, op);
    case OpFail(u, n) => FollowFail(c, op);
    case OpForget(u, n) => FollowForget(c, u, n);
    case OpUpdateNode(n, t, a) => FollowReport(c, n, t, a);
    case OpRemoveNode(n) => FollowRemove(c, op);
    case OpSetZone(n, z) => FollowZone(c, op);
    case OpSetHealth(n, h) => FollowHealth(c, n, h);
    case _ => FollowDrop(c, op);
  }

  lemma AssumeKeepsSites(c: CacheState, u: string, ns: string, n: string, b: Bytes, e: int)
    ensures SameSites(c, Assume(c, u, ns, n, b, e))
  {
    CountersKeepSites(c.(assumed := c.assumed[u := Hold(ns, n, b, e)]), n, b);
    hide Reserve;
  }

  /** The room the cache offers on a node is what the accounts leave unused there. */
  lemma AssumesByAccounts(c: CacheState, u: string, n: string, b: Bytes)
    requires Core(c)
    ensures var a := AccountsOf(c);
            AssumeVerdict(c, u, n, b) == Assumed
            <==> (u !in a.assumed && u !in a.confirmed && n in a.sites && a.sites[n].healthy && b <= Unused(a, n))
  {
    if n in c.nodes { CountersAreSums(c, n); }
    hide Core, Slack, InUse, Unused, GrantsOf;
  }

  /** What a refused reservation and a promotion answer. */
  lemma AnswersTell(c: CacheState, u: string, n: string, b: Bytes)
    ensures var v := AssumeVerdict(c, u, n, b);
            && (v == AlreadyAssumed <==> u in c.assumed)
            && (v == AlreadyConfirmed <==> u in c.confirmed && u !in c.assumed)
            && (v == NodeNotFound <==> n !in c.nodes && u !in c.assumed && u !in c.confirmed)
            && (v in {NodeUnhealthy, InsufficientVRAM, Assumed} ==>
                  n in c.nodes && (v == NodeUnhealthy <==> !c.nodes[n].healthy))
    ensures var v := PromoteVerdict(c, u, n);
            && (v == AlreadySynced <==> u in c.synced && c.synced[u] == MarkReady)
            && (v == PromotionNodeMissing <==> n !in c.nodes && !(u in c.synced && c.synced[u] == MarkReady))
            && (v == Promoted ==> u in c.confirmed)
            && (v == DirectFallback ==> u !in c.confirmed)
  {
  }

  lemma FollowAssume(c: CacheState, u: string, ns: string, n: string, b: Bytes, e: int)
    requires Core(c) && SlackKept(c, Assume(c, u, ns, n, b, e))
    ensures AccountsOf(Assume(c, u, ns, n, b, e)) == Act(AccountsOf(c), OpAssume(u, ns, n, b, e))
  {
    AssumesByAccounts(c, u, n, b);
    AssumeKeepsSites(c, u, ns, n, b, e);
    SitesKept(c, Assume(c, u, ns, n, b, e));
    hide Core, SlackKept, SameSites, SitesOf, GrantsOf, Unused, Recalc, AssumeVerdict;
  }

  lemma ConfirmKeepsSites(c: CacheState, u: string, ns: string, n: string, b: Bytes, now: int)
    ensures SameSites(c, Confirm(c, u, ns, n, b, now))
  {
    CountersKeepSites(c.(confirmed := c.confirmed[u := Hold(ns, n, b, now)]), n, b);
    hide Reserve;
  }

  lemma ConfirmedEntries(c: CacheState, u: string, ns: string, n: string, b: Bytes, now: int)
    ensures var c' := Confirm(c, u, ns, n, b, now);
            && c'.assumed == c.assumed - {u} && c'.synced == c.synced
            && c'.confirmed == c.confirmed[u := if u in c.assumed then c.assumed[u] else Hold(ns, n, b, now)]
            && c'.allocBytes == c.allocBytes && c'.allocNode == c.allocNode
  {
    DropNothing(c.assumed, u);
    hide Recalc;
  }

  lemma FollowConfirm(c: CacheState, u: string, ns: string, n: string, b: Bytes, now: int)
    requires SlackKept(c, Confirm(c, u, ns, n, b, now))
    ensures AccountsOf(Confirm(c, u, ns, n, b, now)) == Act(AccountsOf(c), OpConfirm(u, ns, n, b, now))
  {
    ConfirmKeepsSites(c, u, ns, n, b, now);
    ConfirmedEntries(c, u, ns, n, b, now);
    hide Confirm;
    SitesKept(c, Confirm(c, u, ns, n, b, now));
    hide SlackKept, SameSites, SitesOf, GrantsOf;
  }

  lemma PromoteKeepsSites(c: CacheState, u: string, n: string, b: Bytes)
    ensures SameSites(c, Promote(c, u, n, b))
  {
    hide Floor0, Recalc;
    if n in c.nodes {
      var s := c.nodes[n];
      RecalcSites(c, n, s.(granted := s.granted + b));
      if u in c.confirmed {
        RecalcSites(c, n, s.(reserved := Floor0(s.reserved - c.confirmed[u].bytes), granted := s.granted + b));
      }
    }
  }

  lemma PromoteEntries(c: CacheState, u: string, n: string, b: Bytes)
    requires n in c.nodes && !MarkedReady(c, u)
    ensures var c' := Promote(c, u, n, b);
            && c'.assumed == c.assumed && c'.confirmed == c.confirmed - {u} && c'.synced == c.synced[u := MarkReady]
            && c'.allocBytes == c.allocBytes[u := b] && c'.allocNode == c.allocNode[u := n]
  {
    hide Floor0, Recalc;
    assert u !in c.confirmed ==> c.confirmed - {u} == c.confirmed;
  }

  /** A slice is granted exactly while it is marked Ready. */
  lemma GrantedIsReady(c: CacheState)
    requires Books(c)
    ensures GrantsOf(c.allocBytes, c.allocNode).Keys == c.allocBytes.Keys
    ensures forall u :: u in GrantsOf(c.allocBytes, c.allocNode) <==> MarkedReady(c, u)
  {
    LedgerPositive(c);
    hide Core;
  }

  lemma FollowPromote(c: CacheState, op: Op)
    requires Books(c) && op.OpPromote? && Guard(c, op) && Conserves(c, op)
    ensures AccountsOf(Step(c, op)) == Act(AccountsOf(c), op)
  {
    GrantedIsReady(c);
    hide Core, Marks, Slack, Recalc, GrantsOf, SitesOf;
    if !MarkedReady(c, op.uid) {
      PromoteKeepsSites(c, op.uid, op.node, op.bytes);
      PromoteEntries(c, op.uid, op.node, op.bytes);
      hide Promote, SameSites;
      SitesKept(c, Step(c, op));
      GrantAdded(c.allocBytes, c.allocNode, op.uid, op.bytes, op.node);
    }
  }

  lemma FollowRelease(c: CacheState, op: Op)
    requires Books(c) && op.OpRelease? && Conserves(c, op)
    ensures AccountsOf(Step(c, op)) == Act(AccountsOf(c), op)
  {
    GrantedIsReady(c);
    ReleaseFrame(c, op.uid, op.node);
    ReleaseKeepsSites(c, op.uid, op.node);
    hide Core, Slack, Release, NodesLike, SameSites, GrantsOf, SitesOf;
    SitesKept(c, Step(c, op));
    hide SlackKept, Conserves;
    GrantDropped(c.allocBytes, c.allocNode, {op.uid});
  }

  lemma FollowFail(c: CacheState, op: Op)
    requires Books(c) && op.OpFail? && Conserves(c, op)
    ensures AccountsOf(Step(c, op)) == Act(AccountsOf(c), op)
  {
    GrantedIsReady(c);
    FailFrame(c, op.uid, op.node);
    FailKeepsSites(c, op.uid, op.node);
    hide Core, Slack, Fail, NodesLike, SameSites, GrantsOf, SitesOf;
    SitesKept(c, Step(c, op));
    hide SlackKept, Conserves;
    GrantDropped(c.allocBytes, c.allocNode, {op.uid});
  }

  lemma FollowForget(c: CacheState, u: string, n: string)
    requires Books(c) && Guard(c, OpForget(u, n)) && SlackKept(c, Forget(c, u, n))
    ensures AccountsOf(Forget(c, u, n)) == Act(AccountsOf(c), OpForget(u, n))
  {
    GrantedIsReady(c);
    ForgottenEntries(c, u, n);
    ForgetKeepsSites(c, u, n);
    SitesKept(c, Forget(c, u, n));
    GrantDropped(c.allocBytes, c.allocNode, {u});
    hide Books, SlackKept, SameSites, SitesOf, GrantsOf, Forget;
  }

  lemma ForgottenEntries(c: CacheState, u: string, n: string)
    requires Books(c) && Guard(c, OpForget(u, n))
    ensures var c' := Forget(c, u, n);
            && c'.assumed == c.assumed - {u} && c'.confirmed == c.confirmed - {u} && c'.synced == c.synced - {u}
            && c'.allocBytes == c.allocBytes - {u} && c'.allocNode == c.allocNode - {u}
  {
    LedgerPositive(c);
    assert u in c.allocBytes ==> ReleaseActs(c, u) && n != "";
    DropNothing(c.allocBytes, u);
    DropNothing(c.allocNode, u);
    hide Core, Marks;
    ForgetFrame(c, u, n);
    hide Forget, NodesLike, ReleaseActs;
  }

  lemma DropNothing<V>(m: map<string, V>, u: string)
    ensures u !in m ==> m - {u} == m
  {
  }

  lemma FollowReport(c: CacheState, n: string, total: int, reported: int)
    requires Core(c)
    ensures AccountsOf(UpdateNode(c, n, total, reported)) == Act(AccountsOf(c), OpUpdateNode(n, total, reported))
  {
    var c' := UpdateNode(c, n, total, reported);
    assert c' == c.(nodes := c'.nodes);
    ReportedSite(c, n, total, reported);
    OtherSites(c, n, total, reported);
    hide Core, GrantsOf, Slack, SitesOf, Reported, SiteOf, UpdateNode;
  }

  lemma OtherSites(c: CacheState, n: string, total: int, reported: int)
    requires Core(c)
    ensures var c' := UpdateNode(c, n, total, reported);
            n in c'.nodes && SitesOf(c') == SitesOf(c)[n := SiteOf(c'.nodes[n], Slack(c', n))]
  {
    UpdateNodeKeeps(c, n, total, reported);
    hide Core, Slack, Recalc;
  }

  lemma ReportedSite(c: CacheState, n: string, total: int, reported: int)
    requires Core(c)
    ensures var c' := UpdateNode(c, n, total, reported);
            n in c'.nodes && SiteOf(c'.nodes[n], Slack(c', n)) == Reported(AccountsOf(c), n, total, reported)
  {
    if n in c.nodes { CountersAreSums(c, n); } else { UnregisteredIsEmpty(c, n); }
    hide Core, HoldSum, SumBy, GrantsOf, Unused, InUse;
    var c' := UpdateNode(c, n, total, reported);
    assert c'.allocBytes == c.allocBytes && c'.allocNode == c.allocNode;
    assert LedgerSum(c', n) == LedgerSum(c, n);
    hide LedgerSum;
  }

  lemma FollowRemove(c: CacheState, op: Op)
    requires Books(c) && op.OpRemoveNode? && Conserves(c, op)
    ensures AccountsOf(Step(c, op)) == Act(AccountsOf(c), op)
  {
    var n := op.node;
    GrantedOnNode(c, n);
    hide Core, Marks, Slack;
    if n in c.nodes {
      RemovedSites(c, n);
      hide SitesOf, Conserves, SlackKept;
      var gone := LedgerOnNode(c, n);
      GrantDropped(c.allocBytes, c.allocNode, gone);
      HoldsOff(c.assumed, n);
      HoldsOff(c.confirmed, n);
      hide GrantsOf, LedgerOnNode, OnNode;
    }
  }

  lemma HoldsOff(holds: map<string, Hold>, n: string)
    ensures holds - OnNode(holds, n) == map u | u in holds && holds[u].node != n :: holds[u]
  {
  }

  lemma GrantedOnNode(c: CacheState, n: string)
    requires Books(c)
    ensures var g := GrantsOf(c.allocBytes, c.allocNode); LedgerOnNode(c, n) == set u | u in g && g[u].node == n
    ensures n in SitesOf(c) <==> n in c.nodes
  {
    LedgerPositive(c);
    hide Core, Slack;
  }

  lemma RemovedSites(c: CacheState, n: string)
    requires n in c.nodes && Conserves(c, OpRemoveNode(n))
    ensures SitesOf(RemoveNode(c, n)) == SitesOf(c) - {n}
  {
    hide Slack, OnNode, LedgerOnNode;
  }

  lemma FollowZone(c: CacheState, op: Op)
    requires Books(c) && op.OpSetZone? && Conserves(c, op)
    ensures AccountsOf(Step(c, op)) == Act(AccountsOf(c), op)
  {
    var n, c' := op.node, Step(c, op);
    if n !in c.nodes { UnregisteredIsEmpty(c, n); }
    hide Core, HoldSum, GrantsOf, Marks;
    assert LedgerSum(c', n) == LedgerSum(c, n);
    hide LedgerSum;
    assert Slack(c', n) == if n in c.nodes then Slack(c, n) else 0;
    hide Slack;
    ZonedSites(c, n, op.zone);
    assert n in SitesOf(c) <==> n in c.nodes;
    hide SitesOf, Conserves;
  }

  lemma ZonedSites(c: CacheState, n: string, zone: string)
    requires SlackKept(c, SetZone(c, n, zone))
    ensures var c' := SetZone(c, n, zone);
            n in c'.nodes && SitesOf(c') == SitesOf(c)[n := SiteOf(c'.nodes[n], Slack(c', n))]
  {
    hide Slack;
  }

  lemma FollowHealth(c: CacheState, n: string, h: bool)
    requires SlackKept(c, SetHealth(c, n, h))
    ensures AccountsOf(SetHealth(c, n, h)) == Act(AccountsOf(c), OpSetHealth(n, h))
  {
    hide Slack, GrantsOf;
    var c' := SetHealth(c, n, h);
    if n in c.nodes { assert SitesOf(c') == SitesOf(c)[n := SiteOf(c'.nodes[n], Slack(c', n))]; }
  }

  lemma FollowDrop(c: CacheState, op: Op)
    requires Books(c) && Conserves(c, op) && (op.OpRollback? || op.OpReleaseConfirmed? || op.OpPin? || op.OpReap?)
    ensures AccountsOf(Step(c, op)) == Act(AccountsOf(c), op)
  {
    hide Core, Slack, Recalc, GrantsOf, SitesOf, Marks;
    if op.OpReap? {
      ReapFrame(c, op.order);
      ReapKeepsSites(c, op.order);
    } else {
      DropHoldFrame(c, op.uid, "");
      DropsKeepSites(c, op.uid);
    }
    hide RollbackAll, Rollback, ReleaseConfirmed;
    SitesKept(c, Step(c, op));
  }

  ghost function ActAll(a: Accounts, ops: seq<Op>): Accounts
    decreases |ops|
  {
    if ops == [] then a else ActAll(Act(a, ops[0]), ops[1..])
  }

  /** Over every guarded run the cache keeps the accounts, and its counters are their sums. */
  lemma {:induction false} RunFollows(c: CacheState, ops: seq<Op>)
    requires Books(c) && GuardedRun(c, ops)
    ensures AccountsOf(Run(c, ops)) == ActAll(AccountsOf(c), ops)
    decreases |ops|
  {
    hide Act, AccountsOf;
    if ops != [] {
      GuardedStepConserves(c, ops[0]);
      AccountsFollow(c, ops[0]);
      hide Books, Guard, Step, Conserves, NoClamp;
      RunFollows(Step(c, ops[0]), ops[1..]);
    }
  }

  /** A reap takes exactly the holds strictly past their time, in whatever order the map is walked. */
  lemma ReapedExactly(c: CacheState, order: seq<string>, now: int)
    requires Enumerates(order, Expired(c, now))
    ensures var a := Act(AccountsOf(c), OpReap(order)).assumed;
            forall u :: u in a <==> u in c.assumed && now <= c.assumed[u].expires
  {
  }
}
