/**
 * Quota safety over every run of one namespace: a single scheduling worker asks the quota
 * checker, holds, binds and confirms, while the API moves on, the informer lags behind it,
 * the TTL reaper fires and the scheduler may restart. Bytes truly held never exceed the quota.
 */
module QuotaSafety {
  import opened Sums
  import opened VRAMCaches
  import opened Quotas
  import Scheduling

  /** The namespace, its quota, and per gang its size and its members' common request. */
  datatype Params = Params(namespace: string, max: int, size: map<string, int>, unit: map<string, int>)

  datatype Stage = Admitted | Holding | Pinned | AtApi

  /** The worker's current cycle after a passed quota check. `gang` is "" when checked as a solo slice. */
  datatype Ticket = NoTicket | Ticket(uid: string, gang: string, demand: int, stage: Stage)

  datatype World = World(truth: map<string, Listed>, seen: map<string, Listed>, assumed: map<string, Hold>,
      confirmed: map<string, Hold>, ticket: Ticket)

  datatype Move =
    | Create(uid: string, s: Listed)
    | Advance(uid: string, s: Listed)       // the API object changes: granted, or over
    | Delete(uid: string)
    | Observe(uid: string, s: Listed)       // the informer catches up, perhaps not all the way
    | ObserveGone(uid: string)
    | Ask(uid: string, whole: bool)         // quota check; `whole` weighs the whole gang
    | Take(hold: Hold)                      // fresh reserve, or a pin when already held
    | Expire(uid: string)                   // the TTL reaper
    | Pin(expires: int)
    | Bind
    | HalfBind                              // the node name is written, the bind call fails, the hold is rolled back
    | Confirm(now: int, node: string)
    | GiveUp(keep: bool)                    // deferral keeps the hold, anything else drops it
    | Sync(uid: string)                     // Ready or Failed observed: the confirmed hold goes
    | Forget(uid: string)
    | NodeGone(uids: set<string>)
    | Restart

  function CacheOf(w: World): CacheState {
    EmptyCache.(assumed := w.assumed, confirmed := w.confirmed)
  }

  /** `s` is `t` now or at some earlier time. */
  predicate Lags(s: Listed, t: Listed) {
    && s.gang == t.gang && s.requested == t.requested
    && (s.bound ==> t.bound) && (s.over ==> t.over)
    && (s.granted == 0 || s.granted == t.granted || t.over)
  }

  predicate Sane(s: Listed, p: Params) {
    && s.requested > 0 && 0 <= s.granted <= s.requested
    && (s.gang != "" ==> s.gang in p.size && s.gang in p.unit && s.requested == p.unit[s.gang] && p.size[s.gang] > 0)
  }

  ghost function LiveOne(gang: string): (string, Listed) -> int {
    (u: string, s: Listed) => if s.gang == gang && !s.over then 1 else 0
  }

  /** Members of a gang that exist and are not over. */
  ghost function LiveCount(truth: map<string, Listed>, gang: string): int {
    SumBy(truth, LiveOne(gang))
  }

  ghost function Demand(p: Params, s: Listed, whole: bool): int
    requires whole ==> s.gang in p.size
  {
    if whole then p.size[s.gang] * s.requested else s.requested
  }

  ghost predicate Allowed(w: World, m: Move, p: Params) {
    match m
    case Create(u, s) =>
      u !in w.truth && u !in w.seen && u !in w.assumed && u !in w.confirmed && (w.ticket.Ticket? ==> w.ticket.uid != u)
      && Sane(s, p) && !s.bound && !s.over && s.granted == 0
      && (s.gang != "" ==> LiveCount(w.truth, s.gang) < p.size[s.gang])
    case Advance(u, s) => u in w.truth && Lags(w.truth[u], s) && s.bound == w.truth[u].bound && Sane(s, p)
    case Delete(u) => u in w.truth
    case Observe(u, s) => u in w.truth && Lags(s, w.truth[u]) && (u in w.seen ==> Lags(w.seen[u], s)) && Sane(s, p)
    case ObserveGone(u) => u !in w.truth
    case Ask(u, whole) =>
      w.ticket.NoTicket? && u in w.seen && !w.seen[u].bound && !w.seen[u].over && (whole ==> w.seen[u].gang != "")
    case Take(h) => w.ticket.Ticket? && w.ticket.stage.Admitted? && w.ticket.uid in w.seen
                    && h.namespace == p.namespace && h.bytes == w.seen[w.ticket.uid].requested
    case Pin(_) => w.ticket.Ticket? && w.ticket.stage.Holding? && w.ticket.uid in w.assumed
    case Bind => w.ticket.Ticket? && w.ticket.stage.Pinned? && w.ticket.uid in w.truth
    case HalfBind => w.ticket.Ticket? && w.ticket.stage.Pinned? && w.ticket.uid in w.truth
    case Confirm(_, _) => w.ticket.Ticket? && w.ticket.stage.AtApi?
    case GiveUp(_) => w.ticket.Ticket? && !w.ticket.stage.AtApi?
    case Sync(u) => u in w.seen && w.seen[u].bound
    case Forget(u) => u !in w.truth
    case _ => true
  }

  ghost function Act(w: World, m: Move, p: Params): World
    requires Allowed(w, m, p)
  {
    match m
    case Create(u, s) => w.(truth := w.truth[u := s])
    case Advance(u, s) => w.(truth := w.truth[u := s])
    case Delete(u) => w.(truth := w.truth - {u})
    case Observe(u, s) => w.(seen := w.seen[u := s])
    case ObserveGone(u) => w.(seen := w.seen - {u})
    case Ask(u, whole) =>
      var s := w.seen[u];
      var gang := if whole then s.gang else "";
      if (whole ==> gang in p.size) && Admits(p.max, w.seen, CacheOf(w), p.namespace, Demand(p, s, whole), gang)
      then w.(ticket := Ticket(u, gang, Demand(p, s, whole), Admitted))
      else w
    case Take(h) =>
      var u := w.ticket.uid;
      if u in w.assumed then
          w.(assumed := w.assumed[u := w.assumed[u].(expires := h.expires)], ticket := w.ticket.(stage := Holding))
      else if u in w.confirmed then w.(ticket := NoTicket)
      else w.(assumed := w.assumed[u := h], ticket := w.ticket.(stage := Holding))
    case Expire(u) => w.(assumed := w.assumed - {u})
    case Pin(e) =>
      var u := w.ticket.uid;
      w.(assumed := w.assumed[u := w.assumed[u].(expires := e)], ticket := w.ticket.(stage := Pinned))
    case Bind =>
      w.(truth := w.truth[w.ticket.uid := w.truth[w.ticket.uid].(bound := true)], ticket := w.ticket.(stage := AtApi))
    case HalfBind =>
      var u := w.ticket.uid;
      w.(truth := w.truth[u := w.truth[u].(bound := true)], assumed := w.assumed - {u}, ticket := NoTicket)
    case Confirm(now, node) =>
      var u := w.ticket.uid;
      if u in w.assumed then
          w.(confirmed := w.confirmed[u := w.assumed[u]], assumed := w.assumed - {u}, ticket := NoTicket)
      else
        var h := Hold(p.namespace, node, if u in w.truth then w.truth[u].requested else 0, now);
        w.(confirmed := w.confirmed[u := h], ticket := NoTicket)
    case GiveUp(keep) => w.(ticket := NoTicket, assumed := if keep then w.assumed else w.assumed - {w.ticket.uid})
    case Sync(u) => w.(confirmed := w.confirmed - {u})
    case Forget(u) => w.(assumed := w.assumed - {u}, confirmed := w.confirmed - {u})
    case NodeGone(us) => w.(assumed := w.assumed - us, confirmed := w.confirmed - us)
    case Restart => w.(assumed := map[], confirmed := map[], seen := w.truth, ticket := NoTicket)
  }

  // ----- What is truly held -----

  /** A bound slice that is not over holds its allocation or request; an unbound one holds its reservation. */
  function TrueBytes(s: Listed, reserved: bool): int {
    if s.over then 0 else if s.bound then HeldBytes(s) else if reserved then s.requested else 0
  }

  ghost function TrueWeight(assumed: set<string>): (string, Listed) -> int {
    (u: string, s: Listed) => TrueBytes(s, u in assumed)
  }

  ghost function TrulyHeld(w: World): int {
    SumBy(w.truth, TrueWeight(w.assumed.Keys))
  }

  /** Whether the ticket's demand stands for this slice. */
  predicate Own(t: Ticket, u: string, s: Listed) {
    t.Ticket? && if t.gang != "" then s.gang == t.gang else u == t.uid
  }

  ghost function OtherWeight(assumed: set<string>, t: Ticket): (string, Listed) -> int {
    (u: string, s: Listed) => if Own(t, u, s) then 0 else TrueBytes(s, u in assumed)
  }

  ghost function OwnWeight(assumed: set<string>, t: Ticket): (string, Listed) -> int {
    (u: string, s: Listed) => if Own(t, u, s) then TrueBytes(s, u in assumed) else 0
  }

  ghost function HeldByOthers(w: World): int {
    SumBy(w.truth, OtherWeight(w.assumed.Keys, w.ticket))
  }

  // ----- The invariant -----

  predicate HoldOk(w: World, u: string, h: Hold, p: Params) {
    h.namespace == p.namespace && h.bytes >= 0 && (u in w.truth ==> h.bytes == w.truth[u].requested && u in w.seen)
  }

  /** A live bound slice is seen bound by the informer, or in the ledger, or in the worker's hands. */
  predicate Covered(w: World, u: string)
    requires u in w.truth
  {
    w.truth[u].bound && !w.truth[u].over ==>
      (u in w.seen && w.seen[u].bound) || u in w.confirmed
          || (w.ticket.Ticket? && w.ticket.uid == u && w.ticket.stage.AtApi?)
  }

  /** Losing its hold hides no bytes of `u`: it has none bound, or the informer or the worker still has it. */
  predicate Dispensable(w: World, u: string)
    requires u in w.truth
  {
    || !w.truth[u].bound || w.truth[u].over || (u in w.seen && w.seen[u].bound)
    || (w.ticket.Ticket? && w.ticket.uid == u && w.ticket.stage.AtApi?)
  }

  /** The two moves that can hide bytes from the checker, and when they do not. */
  predicate Guard(w: World, m: Move) {
    match m
    case NodeGone(us) => forall u :: u in us && u in w.confirmed && u in w.truth ==> Dispensable(w, u)
    case HalfBind =>
      w.ticket.Ticket? && w.ticket.uid in w.truth ==>
        (var u := w.ticket.uid; w.truth[u].over || (u in w.seen && w.seen[u].bound) || u in w.confirmed)
    case _ => true
  }

  predicate TicketOk(w: World, p: Params) {
    w.ticket.Ticket? ==>
      (var u := w.ticket.uid;
       && (u in w.truth ==> u in w.seen && Own(w.ticket, u, w.truth[u]))
       && (if w.ticket.gang != "" then w.ticket.gang in p.size && w.ticket.gang in p.unit && p.unit[w.ticket.gang] > 0
             && w.ticket.demand == p.size[w.ticket.gang] * p.unit[w.ticket.gang]
           else u in w.truth ==> w.ticket.demand == w.truth[u].requested))
  }

  ghost predicate Slices(w: World, p: Params) {
    && (forall u :: u in w.truth ==> Sane(w.truth[u], p) && Covered(w, u))
    && (forall u :: u in w.seen ==> Sane(w.seen[u], p) && (u in w.truth ==> Lags(w.seen[u], w.truth[u])))
  }

  ghost predicate Holds(w: World, p: Params) {
    && (forall u :: u in w.assumed ==> HoldOk(w, u, w.assumed[u], p))
    && (forall u :: u in w.confirmed ==> HoldOk(w, u, w.confirmed[u], p))
  }

  ghost predicate GangsFit(w: World, p: Params) {
    forall g :: g in p.size && g != "" ==> LiveCount(w.truth, g) <= p.size[g]
  }

  ghost predicate WithinQuota(w: World, p: Params) {
    TrulyHeld(w) <= p.max && (w.ticket.Ticket? ==> HeldByOthers(w) + w.ticket.demand <= p.max)
  }

  ghost predicate Safe(w: World, p: Params) {
    Slices(w, p) && Holds(w, p) && TicketOk(w, p) && GangsFit(w, p) && WithinQuota(w, p)
  }

  // ----- Asking -----

  /** Whatever the informer has missed is in the ledger: what the checker counts covers what others hold. */
  lemma CheckerCoversOthers(w: World, p: Params, t: Ticket)
    requires Slices(w, p) && Holds(w, p) && w.ticket.NoTicket? && t.Ticket?
    ensures SumBy(w.truth, OtherWeight(w.assumed.Keys, t))
         <= SumBy(w.seen, UsedWeight(t.gang)) + PendingBytes(CacheOf(w), p.namespace, CountedSet(w.seen, t.gang))
  {
    var counted := CountedSet(w.seen, t.gang);
    var wt, wu, wp := OtherWeight(w.assumed.Keys, t), UsedWeight(t.gang), PendingWeight(p.namespace, counted);
    hide SumBy;
    forall u | u in w.truth
      ensures wt(u, w.truth[u]) <= (if u in w.seen then wu(u, w.seen[u]) else 0)
                                 + (if u in w.assumed then wp(u, w.assumed[u]) else 0)
                                 + (if u in w.confirmed then wp(u, w.confirmed[u]) else 0)
    {
      assert Covered(w, u);
    }
    SumCovered(w.truth, wt, w.seen, wu, w.assumed, wp, w.confirmed);
  }

  /** The question a scheduling cycle puts to the quota is this one: the cycle gets past the quota exactly when asking
      issues a ticket, whole gang or solo slice. */
  lemma AskIsTheCycles(w: World, u: string, whole: bool, p: Params, c: CacheState, q: Scheduling.QuotaReads, i: int)
    requires Allowed(w, Ask(u, whole), p) && Sane(w.seen[u], p) && c.assumed == w.assumed && c.confirmed == w.confirmed
    requires q.Reads? && q.quotasListed && q.slicesListed && Scheduling.Governs(q.quotas, p.namespace, i)
    requires q.quotas[i].max == p.max
    requires if whole then q.gangRef == w.seen[u].gang && q.gangSize == p.size[q.gangRef]
             else q.gangRef == "" || q.gangSize <= 0
    ensures Scheduling.WithinQuota(q, w.seen, c, p.namespace, w.seen[u].requested)
        <==> Act(w, Ask(u, whole), p).ticket.Ticket?
  {
    var gang := if whole then w.seen[u].gang else "";
    Scheduling.UseIsListed(w.seen, gang);
    Scheduling.PendingIsUnlisted(w.assumed, w.seen, p.namespace, gang);
    Scheduling.PendingIsUnlisted(w.confirmed, w.seen, p.namespace, gang);
    Scheduling.GovernsOnce(q.quotas, p.namespace);
    hide SumBy, Scheduling.ListedUse, Scheduling.Unlisted, UsedWeight, PendingWeight, CountedSet, FirstFor;
  }

  lemma AskKeeps(w: World, u: string, whole: bool, p: Params)
    requires Safe(w, p) && Allowed(w, Ask(u, whole), p)
    ensures Safe(Act(w, Ask(u, whole), p), p)
  {
    var w' := Act(w, Ask(u, whole), p);
    if w' != w {
      AskSlices(w, u, whole, p);
      AskQuota(w, u, whole, p);
      hide Slices, TicketOk, WithinQuota, Admits, SumBy, LiveCount, HoldOk;
    }
  }

  lemma AskSlices(w: World, u: string, whole: bool, p: Params)
    requires Slices(w, p) && Allowed(w, Ask(u, whole), p)
    ensures var w' := Act(w, Ask(u, whole), p); Slices(w', p) && (w' == w || TicketOk(w', p))
  {
    hide Admits, SumBy, LiveCount;
    var w' := Act(w, Ask(u, whole), p);
    forall v | v in w'.truth ensures Sane(w'.truth[v], p) && Covered(w', v) { assert Covered(w, v); }
  }

  lemma AskQuota(w: World, u: string, whole: bool, p: Params)
    requires Slices(w, p) && Holds(w, p) && WithinQuota(w, p) && Allowed(w, Ask(u, whole), p)
    ensures WithinQuota(Act(w, Ask(u, whole), p), p)
  {
    var w' := Act(w, Ask(u, whole), p);
    if w' != w { CheckerCoversOthers(w, p, w'.ticket); }
    hide Slices, Holds, SumBy, LiveCount;
  }

  // ----- Moves that add no bytes -----

  /** No slice's true bytes rise, and new slices hold none. */
  ghost predicate Falls(w: World, w': World) {
    forall u :: u in w'.truth ==>
      if u in w.truth then
        TrueBytes(w'.truth[u], u in w'.assumed) <= TrueBytes(w.truth[u], u in w.assumed)
            && w'.truth[u].gang == w.truth[u].gang
      else TrueBytes(w'.truth[u], u in w'.assumed) == 0
  }

  lemma FallingKeepsQuota(w: World, w': World, p: Params)
    requires WithinQuota(w, p) && Slices(w, p) && Slices(w', p) && Falls(w, w')
    requires w'.ticket.NoTicket?
        || (w.ticket.Ticket? && w'.ticket.Ticket? && w'.ticket == w.ticket.(stage := w'.ticket.stage))
    ensures WithinQuota(w', p)
  {
    TrueFalls(w, w', p);
    if w'.ticket.Ticket? { OthersFall(w, w', p); }
    hide Slices, Falls, TrulyHeld, HeldByOthers;
  }

  lemma TrueFalls(w: World, w': World, p: Params)
    requires Slices(w, p) && Slices(w', p) && Falls(w, w')
    ensures TrulyHeld(w') <= TrulyHeld(w)
  {
    hide SumBy, Covered, Lags;
    var fresh_ := w'.truth.Keys - w.truth.Keys;
    SumDropZeros(w'.truth, TrueWeight(w'.assumed.Keys), fresh_);
    SumCompare(w'.truth - fresh_, TrueWeight(w'.assumed.Keys), w.truth, TrueWeight(w.assumed.Keys));
  }

  lemma OthersFall(w: World, w': World, p: Params)
    requires Slices(w, p) && Slices(w', p) && Falls(w, w')
    requires w.ticket.Ticket? && w'.ticket.Ticket? && w'.ticket == w.ticket.(stage := w'.ticket.stage)
    ensures HeldByOthers(w') <= HeldByOthers(w)
  {
    hide SumBy, Covered, Lags;
    var fresh_ := w'.truth.Keys - w.truth.Keys;
    var others, others' := OtherWeight(w.assumed.Keys, w.ticket), OtherWeight(w'.assumed.Keys, w'.ticket);
    SumDropZeros(w'.truth, others', fresh_);
    SumCompare(w'.truth - fresh_, others', w.truth, others);
  }

  // ----- Moves of the ticket's own slice -----

  /** The ticket's demand covers everything its own slices can hold. */
  lemma DemandCoversOwn(w: World, p: Params)
    requires Slices(w, p) && TicketOk(w, p) && GangsFit(w, p) && w.ticket.Ticket?
    ensures TrulyHeld(w) <= HeldByOthers(w) + w.ticket.demand || (w.ticket.gang == "" && w.ticket.uid !in w.truth)
    ensures w.ticket.gang == "" && w.ticket.uid !in w.truth ==> TrulyHeld(w) == HeldByOthers(w)
  {
    hide SumBy;
    var a, t := w.assumed.Keys, w.ticket;
    SumPlus(w.truth, TrueWeight(a), OtherWeight(a, t), OwnWeight(a, t));
    if t.gang != "" {
      SumAtMostCount(w.truth, OwnWeight(a, t), LiveOne(t.gang), p.unit[t.gang]);
      CountTimesUnit(LiveCount(w.truth, t.gang), p.size[t.gang], p.unit[t.gang]);
    } else if t.uid in w.truth {
      SumRemove(w.truth, OwnWeight(a, t), t.uid);
      SumZero(w.truth - {t.uid}, OwnWeight(a, t));
    } else {
      SumZero(w.truth, OwnWeight(a, t));
    }
  }

  lemma CountTimesUnit(count: int, size: int, unit: int)
    requires count <= size && unit > 0
    ensures unit * count <= size * unit
  {
  }

  /** Moves that touch only the bytes of the ticket's own slices stay within quota. */
  lemma OwnMoveKeepsQuota(w: World, w': World, p: Params)
    requires WithinQuota(w, p) && Slices(w', p) && TicketOk(w', p) && GangsFit(w', p)
    requires w.ticket.Ticket? && w'.ticket.Ticket? && w'.ticket == w.ticket.(stage := w'.ticket.stage)
    requires w.ticket.uid in w'.truth
    requires w'.truth.Keys == w.truth.Keys
    requires forall u :: u in w.truth ==> w'.truth[u].gang == w.truth[u].gang
    requires forall u ::
        u in w.truth && !Own(w.ticket, u, w.truth[u]) ==>
        w'.truth[u] == w.truth[u] && (u in w'.assumed <==> u in w.assumed)
    ensures WithinQuota(w', p)
  {
    hide SumBy;
    SumCongruent(w'.truth, OtherWeight(w'.assumed.Keys, w'.ticket), w.truth, OtherWeight(w.assumed.Keys, w.ticket));
    DemandCoversOwn(w', p);
  }

  // ----- Every move -----

  /** Moves that change neither slices' true bytes upwards nor the ticket's slice. */
  predicate Passive(m: Move) {
    m.Create? || m.Advance? || m.Delete? || m.Observe? || m.ObserveGone? || m.Expire? || m.Pin? || m.Confirm?
        || m.GiveUp? || m.Sync?
    || m.Forget? || m.NodeGone? || m.Restart?
  }

  lemma PassiveCovered(w: World, m: Move, p: Params, u: string)
    requires Slices(w, p) && Allowed(w, m, p) && Guard(w, m) && Passive(m) && u in Act(w, m, p).truth
    ensures Sane(Act(w, m, p).truth[u], p) && Covered(Act(w, m, p), u)
  {
    hide SumBy, LiveCount;
    if u in w.truth { assert Covered(w, u); }
  }

  lemma PassiveSeen(w: World, m: Move, p: Params, u: string)
    requires Slices(w, p) && Allowed(w, m, p) && Guard(w, m) && Passive(m) && u in Act(w, m, p).seen
    ensures var w' := Act(w, m, p); Sane(w'.seen[u], p) && (u in w'.truth ==> Lags(w'.seen[u], w'.truth[u]))
  {
    hide SumBy, LiveCount, Covered;
  }

  lemma PassiveSlices(w: World, m: Move, p: Params)
    requires Safe(w, p) && Allowed(w, m, p) && Guard(w, m) && Passive(m)
    ensures Slices(Act(w, m, p), p)
  {
    var w' := Act(w, m, p);
    forall u | u in w'.truth ensures Sane(w'.truth[u], p) && Covered(w', u) { PassiveCovered(w, m, p, u); }
    forall u | u in w'.seen ensures Sane(w'.seen[u], p) && (u in w'.truth ==> Lags(w'.seen[u], w'.truth[u])) {
      PassiveSeen(w, m, p, u);
    }
    hide Holds, TicketOk, GangsFit, WithinQuota, Act, Allowed, Sane, Covered, Lags;
  }

  lemma PassiveAssumed(w: World, m: Move, p: Params, u: string)
    requires Slices(w, p) && Holds(w, p) && Allowed(w, m, p) && Guard(w, m) && Passive(m) && u in Act(w, m, p).assumed
    ensures u in w.assumed && HoldOk(Act(w, m, p), u, Act(w, m, p).assumed[u], p)
  {
    hide SumBy, LiveCount;
    assert HoldOk(w, u, w.assumed[u], p);
    hide Holds;
  }

  lemma PassiveConfirmed(w: World, m: Move, p: Params, u: string)
    requires Slices(w, p) && Holds(w, p) && TicketOk(w, p) && Allowed(w, m, p) && Guard(w, m) && Passive(m)
    requires u in Act(w, m, p).confirmed
    ensures HoldOk(Act(w, m, p), u, Act(w, m, p).confirmed[u], p)
  {
    hide SumBy, LiveCount;
    if u in w.confirmed { assert HoldOk(w, u, w.confirmed[u], p); }
    if u in w.assumed { assert HoldOk(w, u, w.assumed[u], p); }
    hide Holds;
  }

  lemma PassiveTicket(w: World, m: Move, p: Params)
    requires Slices(w, p) && TicketOk(w, p) && Allowed(w, m, p) && Guard(w, m) && Passive(m)
    ensures TicketOk(Act(w, m, p), p)
  {
    hide SumBy, LiveCount;
  }

  lemma PassiveHolds(w: World, m: Move, p: Params)
    requires Safe(w, p) && Allowed(w, m, p) && Guard(w, m) && Passive(m)
    ensures Holds(Act(w, m, p), p) && TicketOk(Act(w, m, p), p)
  {
    PassiveTicket(w, m, p);
    var w' := Act(w, m, p);
    forall u | u in w'.assumed ensures HoldOk(w', u, w'.assumed[u], p) { PassiveAssumed(w, m, p, u); }
    forall u | u in w'.confirmed ensures HoldOk(w', u, w'.confirmed[u], p) { PassiveConfirmed(w, m, p, u); }
    hide Slices, TicketOk, GangsFit, WithinQuota, Act, Allowed, HoldOk;
  }

  lemma PassiveFallsAt(w: World, m: Move, p: Params, u: string)
    requires Slices(w, p) && Allowed(w, m, p) && Guard(w, m) && Passive(m) && u in Act(w, m, p).truth
    ensures var w' := Act(w, m, p);
            if u in w.truth then
              TrueBytes(w'.truth[u], u in w'.assumed) <= TrueBytes(w.truth[u], u in w.assumed)
                  && w'.truth[u].gang == w.truth[u].gang
            else TrueBytes(w'.truth[u], u in w'.assumed) == 0
  {
    hide SumBy, LiveCount, Covered;
    if u in w.truth { assert Sane(w.truth[u], p); }
    hide Slices;
  }

  lemma PassiveFalls(w: World, m: Move, p: Params)
    requires Safe(w, p) && Allowed(w, m, p) && Guard(w, m) && Passive(m)
    ensures Falls(w, Act(w, m, p))
    ensures var t := Act(w, m, p).ticket; t.NoTicket? || (w.ticket.Ticket? && t == w.ticket.(stage := t.stage))
  {
    PassiveTicketStays(w, m, p);
    var w' := Act(w, m, p);
    forall u | u in w'.truth
      ensures if u in w.truth then
                TrueBytes(w'.truth[u], u in w'.assumed) <= TrueBytes(w.truth[u], u in w.assumed)
                    && w'.truth[u].gang == w.truth[u].gang
              else TrueBytes(w'.truth[u], u in w'.assumed) == 0
    {
      PassiveFallsAt(w, m, p, u);
    }
    hide Slices, Holds, TicketOk, GangsFit, WithinQuota, Act, Allowed, TrueBytes;
  }

  lemma PassiveTicketStays(w: World, m: Move, p: Params)
    requires Allowed(w, m, p) && Guard(w, m) && Passive(m)
    ensures var t := Act(w, m, p).ticket; t.NoTicket? || (w.ticket.Ticket? && t == w.ticket.(stage := t.stage))
  {
    hide LiveCount, Lags, Sane;
  }

  lemma GangsStayFit(w: World, m: Move, p: Params)
    requires Safe(w, p) && Allowed(w, m, p)
    ensures GangsFit(Act(w, m, p), p)
  {
    hide SumBy, WithinQuota, Slices, Holds, TicketOk;
    var w' := Act(w, m, p);
    forall g | g in p.size && g != "" ensures LiveCount(w'.truth, g) <= p.size[g] {
      assert LiveCount(w.truth, g) <= p.size[g];
      match m
      case Create(u, s) => SumInsert(w.truth, LiveOne(g), u, s);
      case Advance(u, s) => SumInsert(w.truth, LiveOne(g), u, s);
      case Delete(u) => SumRemove(w.truth, LiveOne(g), u);
      case Bind => SumInsert(w.truth, LiveOne(g), w.ticket.uid, w'.truth[w.ticket.uid]);
      case HalfBind => SumInsert(w.truth, LiveOne(g), w.ticket.uid, w'.truth[w.ticket.uid]);
      case _ =>
    }
  }

  lemma PassiveKeeps(w: World, m: Move, p: Params)
    requires Safe(w, p) && Allowed(w, m, p) && Guard(w, m) && Passive(m)
    ensures Safe(Act(w, m, p), p)
  {
    PassiveSlices(w, m, p);
    PassiveHolds(w, m, p);
    PassiveFalls(w, m, p);
    GangsStayFit(w, m, p);
    hide Slices, Holds, TicketOk, GangsFit, WithinQuota, Falls, Act, Allowed;
    FallingKeepsQuota(w, Act(w, m, p), p);
  }

  lemma TakeKeeps(w: World, h: Hold, p: Params)
    requires Safe(w, p) && Allowed(w, Take(h), p)
    ensures Safe(Act(w, Take(h), p), p)
  {
    GangsStayFit(w, Take(h), p);
    TakeSlices(w, h, p);
    TakeHolds(w, h, p);
    TakeQuota(w, h, p);
    hide Slices, Holds, TicketOk, GangsFit, WithinQuota, Act, Allowed;
  }

  lemma TakeQuota(w: World, h: Hold, p: Params)
    requires Safe(w, p) && Allowed(w, Take(h), p)
    requires var w' := Act(w, Take(h), p); Slices(w', p) && TicketOk(w', p) && GangsFit(w', p)
    ensures WithinQuota(Act(w, Take(h), p), p)
  {
    hide Slices, Holds, GangsFit, WithinQuota, TicketOk, Own, TrueBytes;
    var w', u := Act(w, Take(h), p), w.ticket.uid;
    if w'.ticket.NoTicket? || u in w.assumed {
      assert w'.assumed.Keys == w.assumed.Keys;
      FallingKeepsQuota(w, w', p);
    } else {
      TakenFresh(w, w', h, p);
    }
  }

  lemma TakenFresh(w: World, w': World, h: Hold, p: Params)
    requires w.ticket.Ticket?
    requires w' == w.(assumed := w.assumed[w.ticket.uid := h], ticket := w.ticket.(stage := Holding))
    requires WithinQuota(w, p) && Slices(w, p) && Slices(w', p) && TicketOk(w, p) && TicketOk(w', p) && GangsFit(w', p)
    ensures WithinQuota(w', p)
  {
    hide Slices, GangsFit, WithinQuota;
    if w.ticket.uid in w.truth {
      OwnMoveKeepsQuota(w, w', p);
    } else {
      FallingKeepsQuota(w, w', p);
    }
  }

  lemma TakeSlices(w: World, h: Hold, p: Params)
    requires Safe(w, p) && Allowed(w, Take(h), p)
    ensures var w' := Act(w, Take(h), p); Slices(w', p) && TicketOk(w', p)
  {
    hide WithinQuota, GangsFit, Holds, SumBy, LiveCount;
    var w' := Act(w, Take(h), p);
    forall u | u in w'.truth ensures Sane(w'.truth[u], p) && Covered(w', u) { assert Covered(w, u); }
  }

  lemma TakeHolds(w: World, h: Hold, p: Params)
    requires Safe(w, p) && Allowed(w, Take(h), p)
    ensures Holds(Act(w, Take(h), p), p)
  {
    hide WithinQuota, GangsFit, SumBy, LiveCount, Covered;
    var w' := Act(w, Take(h), p);
    forall u | u in w'.assumed ensures HoldOk(w', u, w'.assumed[u], p) {
      if u in w.assumed { assert HoldOk(w, u, w.assumed[u], p); }
    }
    forall u | u in w'.confirmed ensures HoldOk(w', u, w'.confirmed[u], p) { assert HoldOk(w, u, w.confirmed[u], p); }
  }

  lemma BindKeeps(w: World, p: Params)
    requires Safe(w, p) && Allowed(w, Bind, p)
    ensures Safe(Act(w, Bind, p), p)
  {
    var w' := Act(w, Bind, p);
    GangsStayFit(w, Bind, p);
    BindParts(w, p);
    hide Holds, GangsFit, WithinQuota, Slices;
    OwnMoveKeepsQuota(w, w', p);
  }

  lemma BindParts(w: World, p: Params)
    requires Safe(w, p) && Allowed(w, Bind, p)
    ensures var w' := Act(w, Bind, p); Slices(w', p) && Holds(w', p) && TicketOk(w', p)
  {
    hide WithinQuota, GangsFit, SumBy, LiveCount;
    var w' := Act(w, Bind, p);
    forall u | u in w'.truth ensures Sane(w'.truth[u], p) && Covered(w', u) { assert Covered(w, u); }
    forall u | u in w'.assumed ensures HoldOk(w', u, w'.assumed[u], p) { assert HoldOk(w, u, w.assumed[u], p); }
    forall u | u in w'.confirmed ensures HoldOk(w', u, w'.confirmed[u], p) { assert HoldOk(w, u, w.confirmed[u], p); }
  }

  /** A half-done bind is a bind whose hold and ticket are then dropped. */
  lemma HalfBindKeeps(w: World, p: Params)
    requires Safe(w, p) && Allowed(w, HalfBind, p) && Guard(w, HalfBind)
    ensures Safe(Act(w, HalfBind, p), p)
  {
    BindKeeps(w, p);
    HalfBindParts(w, p);
    HalfBindFalls(w, p);
    GangsStayFit(w, HalfBind, p);
    hide Holds, GangsFit, WithinQuota, Slices, TicketOk, Falls, Act, Allowed, Guard;
    FallingKeepsQuota(Act(w, Bind, p), Act(w, HalfBind, p), p);
  }

  lemma HalfBindFalls(w: World, p: Params)
    requires Allowed(w, HalfBind, p) && Slices(Act(w, Bind, p), p)
    ensures Falls(Act(w, Bind, p), Act(w, HalfBind, p)) && Act(w, HalfBind, p).ticket == NoTicket
  {
    hide LiveCount, Covered, Lags;
    var w1 := Act(w, Bind, p);
    assert Sane(w1.truth[w.ticket.uid], p);
  }

  lemma HalfBindParts(w: World, p: Params)
    requires Safe(w, p) && Allowed(w, HalfBind, p) && Guard(w, HalfBind)
    ensures var w' := Act(w, HalfBind, p); Slices(w', p) && Holds(w', p) && TicketOk(w', p)
  {
    hide WithinQuota, GangsFit, SumBy, LiveCount;
    var w' := Act(w, HalfBind, p);
    forall u | u in w'.truth ensures Sane(w'.truth[u], p) && Covered(w', u) { assert Covered(w, u); }
    forall u | u in w'.assumed ensures HoldOk(w', u, w'.assumed[u], p) { assert HoldOk(w, u, w.assumed[u], p); }
    forall u | u in w'.confirmed ensures HoldOk(w', u, w'.confirmed[u], p) { assert HoldOk(w, u, w.confirmed[u], p); }
  }

  lemma MoveKeeps(w: World, m: Move, p: Params)
    requires Safe(w, p) && Allowed(w, m, p) && Guard(w, m)
    ensures Safe(Act(w, m, p), p)
  {
    hide Safe, Guard;
    match m
    case Ask(u, whole) => AskKeeps(w, u, whole, p);
    case Take(h) => TakeKeeps(w, h, p);
    case Bind => BindKeeps(w, p);
    case HalfBind => HalfBindKeeps(w, p);
    case _ => PassiveKeeps(w, m, p);
  }

  /** The invariant survives a move exactly when its guard holds. */
  lemma SafetyExact(w: World, m: Move, p: Params)
    requires Safe(w, p) && Allowed(w, m, p)
    ensures Safe(Act(w, m, p), p) <==> Guard(w, m)
  {
    if Guard(w, m) {
      MoveKeeps(w, m, p);
    } else {
      UnguardedHides(w, m, p);
    }
    hide Safe, Guard, Act, Allowed;
  }

  /** Live bound bytes that neither the informer nor the cache nor the worker's hands account for. */
  predicate Lost(w: World, u: string) {
    && u in w.truth && w.truth[u].bound && !w.truth[u].over && !(u in w.seen && w.seen[u].bound)
    && u !in w.confirmed && u !in w.assumed && !(w.ticket.Ticket? && w.ticket.uid == u && w.ticket.stage.AtApi?)
  }

  /** What an unguarded move does: it loses a slice. */
  lemma UnguardedLoses(w: World, m: Move, p: Params) returns (u: string)
    requires Slices(w, p) && Allowed(w, m, p) && !Guard(w, m)
    ensures Lost(Act(w, m, p), u) && HeldBytes(Act(w, m, p).truth[u]) > 0
  {
    hide LiveCount, Covered, Lags;
    if m.HalfBind? {
      u := w.ticket.uid;
    } else {
      u :| u in m.uids && u in w.confirmed && u in w.truth && !Dispensable(w, u);
    }
    assert Sane(w.truth[u], p);
  }

  lemma UnguardedHides(w: World, m: Move, p: Params)
    requires Safe(w, p) && Allowed(w, m, p) && !Guard(w, m)
    ensures !Safe(Act(w, m, p), p)
  {
    var u := UnguardedLoses(w, m, p);
    hide Holds, TicketOk, GangsFit, WithinQuota, Sane, Lags, Act, Allowed, Guard;
    assert !Covered(Act(w, m, p), u);
  }

  // ----- The same moves in the cache -----

  /** `c'` is what the cache makes of the move. */
  ghost predicate Follows(c: CacheState, c': CacheState, w: World, m: Move, p: Params)
    requires Allowed(w, m, p)
  {
    match m
    case Take(h) =>
      var u := w.ticket.uid;
      if u in c.assumed then c' == VRAMCaches.Pin(c, u, h.expires)
      else
        && c' == Assume(c, u, h.namespace, h.node, h.bytes, h.expires)
        && AssumeVerdict(c, u, h.node, h.bytes) in {Assumed, AlreadyConfirmed}
    case Expire(u) => c' == Rollback(c, u)
    case Pin(e) => c' == VRAMCaches.Pin(c, w.ticket.uid, e)
    case Confirm(now, node) =>
      var u := w.ticket.uid;
      c' == VRAMCaches.Confirm(c, u, p.namespace, node, if u in w.truth then w.truth[u].requested else 0, now)
    case GiveUp(keep) => c' == if keep then c else Rollback(c, w.ticket.uid)
    case HalfBind => c' == Rollback(c, w.ticket.uid)
    case Sync(u) =>
      || (exists n, b :: !MarkedReady(c, u) && n in c.nodes && c' == Promote(c, u, n, b))
      || (exists n :: FailActs(c, u) && c' == Fail(c, u, n))
    case Forget(u) => exists n :: c' == VRAMCaches.Forget(c, u, n)
    case NodeGone(us) =>
      exists n :: n in c.nodes && us == OnNode(c.assumed, n) + OnNode(c.confirmed, n) && c' == RemoveNode(c, n)
    case Restart => c' == EmptyCache
    case _ => c' == c
  }

  ghost predicate SameHolds(c: CacheState, w: World) {
    c.assumed == w.assumed && c.confirmed == w.confirmed
  }

  /** The cache makes the move from the holds of the world. */
  ghost predicate Moves(c: CacheState, c': CacheState, w: World, m: Move, p: Params) {
    Allowed(w, m, p) && Follows(c, c', w, m, p) && SameHolds(c, w)
  }

  lemma TakeFollows(c: CacheState, c': CacheState, w: World, h: Hold, p: Params)
    ensures Moves(c, c', w, Take(h), p) ==> SameHolds(c', Act(w, Take(h), p))
  {
    if !Moves(c, c', w, Take(h), p) { return; }
    hide Assume, AssumeVerdict, VRAMCaches.Pin, LiveCount, Admits;
    var u := w.ticket.uid;
    PinHolds(c, u, h.expires);
    AssumeHolds(c, u, h);
  }

  lemma ReturnFollows(c: CacheState, c': CacheState, w: World, m: Move, p: Params)
    ensures Moves(c, c', w, m, p) && (m.Expire? || m.GiveUp? || m.HalfBind?) ==> SameHolds(c', Act(w, m, p))
  {
    if !Moves(c, c', w, m, p) || !(m.Expire? || m.GiveUp? || m.HalfBind?) { return; }
    RollbackHolds(c, if m.Expire? then m.uid else w.ticket.uid);
    hide Rollback;
  }

  lemma BindFollows(c: CacheState, c': CacheState, w: World, m: Move, p: Params)
    ensures Moves(c, c', w, m, p) && (m.Pin? || m.Confirm?) ==> SameHolds(c', Act(w, m, p))
  {
    if !Moves(c, c', w, m, p) || !(m.Pin? || m.Confirm?) { return; }
    hide VRAMCaches.Pin, VRAMCaches.Confirm, LiveCount, Admits;
    var u := w.ticket.uid;
    match m
    case Pin(e) => PinHolds(c, u, e);
    case Confirm(now, node) =>
      ConfirmHolds(c, u, Hold(p.namespace, node, if u in w.truth then w.truth[u].requested else 0, now));
  }

  lemma SyncFollows(c: CacheState, c': CacheState, w: World, u: string, p: Params)
    ensures Moves(c, c', w, Sync(u), p) ==> SameHolds(c', Act(w, Sync(u), p))
  {
    if !Moves(c, c', w, Sync(u), p) { return; }
    hide Promote, Fail, FailActs;
    if n, b :| !MarkedReady(c, u) && n in c.nodes && c' == Promote(c, u, n, b) {
      PromoteHolds(c, u, n, b);
    } else {
      var n :| FailActs(c, u) && c' == Fail(c, u, n);
      FailHolds(c, u, n);
    }
  }

  lemma RemovalFollows(c: CacheState, c': CacheState, w: World, m: Move, p: Params)
    requires c.assumed.Keys !! c.confirmed.Keys
    ensures Moves(c, c', w, m, p) && (m.Forget? || m.NodeGone?) ==> SameHolds(c', Act(w, m, p))
  {
    if !Moves(c, c', w, m, p) || !(m.Forget? || m.NodeGone?) { return; }
    hide VRAMCaches.Forget, RemoveNode;
    if m.Forget? {
      var n :| c' == VRAMCaches.Forget(c, m.uid, n);
      ForgetHolds(c, m.uid, n);
    } else {
      var n :| n in c.nodes && m.uids == OnNode(c.assumed, n) + OnNode(c.confirmed, n) && c' == RemoveNode(c, n);
      NodeGoneFollows(c, n);
    }
  }

  lemma UntouchedFollows(c: CacheState, c': CacheState, w: World, m: Move, p: Params)
    requires m.Create? || m.Advance? || m.Delete? || m.Observe? || m.ObserveGone? || m.Ask? || m.Bind? || m.Restart?
    ensures Moves(c, c', w, m, p) ==> SameHolds(c', Act(w, m, p))
  {
    hide Admits, LiveCount;
  }

  /** The holds of the world are those of the cache, whichever section a move runs. */
  lemma CacheFollows(c: CacheState, c': CacheState, w: World, m: Move, p: Params)
    requires Allowed(w, m, p) && Follows(c, c', w, m, p) && SameHolds(c, w) && c.assumed.Keys !! c.confirmed.Keys
    ensures SameHolds(c', Act(w, m, p))
  {
    hide Allowed, Follows, Act, SameHolds;
    match m
    case Take(h) => TakeFollows(c, c', w, h, p);
    case Expire(_) => ReturnFollows(c, c', w, m, p);
    case GiveUp(_) => ReturnFollows(c, c', w, m, p);
    case HalfBind => ReturnFollows(c, c', w, m, p);
    case Pin(_) => BindFollows(c, c', w, m, p);
    case Confirm(_, _) => BindFollows(c, c', w, m, p);
    case Sync(u) => SyncFollows(c, c', w, u, p);
    case Forget(_) => RemovalFollows(c, c', w, m, p);
    case NodeGone(_) => RemovalFollows(c, c', w, m, p);
    case _ => UntouchedFollows(c, c', w, m, p);
  }

  lemma RollbackHolds(c: CacheState, u: string)
    ensures Rollback(c, u).assumed == c.assumed - {u} && Rollback(c, u).confirmed == c.confirmed
  {
    assert u !in c.assumed ==> c.assumed - {u} == c.assumed;
  }

  lemma PinHolds(c: CacheState, u: string, e: int)
    ensures VRAMCaches.Pin(c, u, e).assumed
        == (if u in c.assumed then c.assumed[u := c.assumed[u].(expires := e)] else c.assumed)
    ensures VRAMCaches.Pin(c, u, e).confirmed == c.confirmed
  {
  }

  lemma AssumeHolds(c: CacheState, u: string, h: Hold)
    ensures var c' := Assume(c, u, h.namespace, h.node, h.bytes, h.expires);
        var v := AssumeVerdict(c, u, h.node, h.bytes);
            && c'.confirmed == c.confirmed && c'.assumed == (if v == Assumed then c.assumed[u := h] else c.assumed)
            && (v == Assumed ==> u !in c.assumed && u !in c.confirmed) && (v == AlreadyConfirmed ==> u in c.confirmed)
  {
    hide Recalc;
    assert Hold(h.namespace, h.node, h.bytes, h.expires) == h;
  }

  lemma ConfirmHolds(c: CacheState, u: string, h: Hold)
    ensures var c' := VRAMCaches.Confirm(c, u, h.namespace, h.node, h.bytes, h.expires);
            c'.confirmed == c.confirmed[u := if u in c.assumed then c.assumed[u] else h]
            && c'.assumed == (if u in c.assumed then c.assumed - {u} else c.assumed)
  {
    hide Recalc;
  }

  lemma PromoteHolds(c: CacheState, u: string, n: string, b: int)
    requires !MarkedReady(c, u) && n in c.nodes
    ensures Promote(c, u, n, b).assumed == c.assumed && Promote(c, u, n, b).confirmed == c.confirmed - {u}
  {
    hide Recalc;
    assert u !in c.confirmed ==> c.confirmed - {u} == c.confirmed;
  }

  lemma FailHolds(c: CacheState, u: string, n: string)
    requires FailActs(c, u)
    ensures Fail(c, u, n).assumed == c.assumed && Fail(c, u, n).confirmed == c.confirmed - {u}
  {
    hide Recalc;
    assert u !in c.confirmed ==> c.confirmed - {u} == c.confirmed;
  }

  lemma ForgetHolds(c: CacheState, u: string, n: string)
    ensures VRAMCaches.Forget(c, u, n).assumed == c.assumed - {u}
    ensures VRAMCaches.Forget(c, u, n).confirmed == c.confirmed - {u}
  {
    RollbackHolds(c, u);
    hide Recalc, Rollback;
    assert u !in c.confirmed ==> c.confirmed - {u} == c.confirmed;
  }

  lemma NodeGoneFollows(c: CacheState, n: string)
    requires c.assumed.Keys !! c.confirmed.Keys && n in c.nodes
    ensures var us := OnNode(c.assumed, n) + OnNode(c.confirmed, n);
            RemoveNode(c, n).assumed == c.assumed - us && RemoveNode(c, n).confirmed == c.confirmed - us
  {
  }

  ghost predicate AllowedRun(w: World, run: seq<Move>, p: Params)
    decreases |run|
  {
    run == [] || (Allowed(w, run[0], p) && AllowedRun(Act(w, run[0], p), run[1..], p))
  }

  ghost function ActAll(w: World, run: seq<Move>, p: Params): World
    requires AllowedRun(w, run, p)
    decreases |run|
  {
    if run == [] then w else ActAll(Act(w, run[0], p), run[1..], p)
  }

  ghost predicate GuardedRun(w: World, run: seq<Move>, p: Params)
    requires AllowedRun(w, run, p)
    decreases |run|
  {
    run == [] || (Guard(w, run[0]) && GuardedRun(Act(w, run[0], p), run[1..], p))
  }

  /** In every run, mixing solo and gang admissions, with a lagging informer, a reaper and restarts,
      the bytes truly held in the namespace never exceed its quota. */
  lemma {:induction false} QuotaNeverExceeded(w: World, run: seq<Move>, p: Params)
    requires Safe(w, p) && AllowedRun(w, run, p) && GuardedRun(w, run, p)
    ensures TrulyHeld(ActAll(w, run, p)) <= p.max && Safe(ActAll(w, run, p), p)
    decreases |run|
  {
    if run != [] {
      hide Safe, Allowed, Act, Guard;
      MoveKeeps(w, run[0], p);
      QuotaNeverExceeded(Act(w, run[0], p), run[1..], p);
    }
  }

  lemma EmptyWorldSafe(p: Params)
    requires p.max >= 0 && forall g :: g in p.size ==> p.size[g] >= 0
    ensures Safe(World(map[], map[], map[], map[], NoTicket), p)
  {
  }

  // ----- A lost slice always ends over quota -----

  /** A guarded run from `w` that ends in `w'`. */
  ghost predicate Reaches(w: World, run: seq<Move>, w': World, p: Params) {
    AllowedRun(w, run, p) && GuardedRun(w, run, p) && ActAll(w, run, p) == w'
  }

  lemma ReachStep(w: World, m: Move, w1: World, rest: seq<Move>, w2: World, p: Params)
    requires Allowed(w, m, p) && Guard(w, m) && Act(w, m, p) == w1 && Reaches(w1, rest, w2, p)
    ensures Reaches(w, [m] + rest, w2, p)
  {
    hide Allowed, Guard, Act;
    assert ([m] + rest)[1..] == rest;
  }

  lemma {:induction false} ReachThen(w: World, run: seq<Move>, w1: World, rest: seq<Move>, w2: World, p: Params)
    requires Reaches(w, run, w1, p) && Reaches(w1, rest, w2, p)
    ensures Reaches(w, run + rest, w2, p)
    decreases |run|
  {
    hide Allowed, Guard, Act;
    if run == [] {
      assert run + rest == rest;
    } else {
      ReachThen(Act(w, run[0], p), run[1..], w1, rest, w2, p);
      assert (run + rest)[1..] == run[1..] + rest;
    }
  }

  /** The worker ends its cycle. */
  lemma EndCycle(w: World, u: string, p: Params) returns (run: seq<Move>, w': World)
    requires Lost(w, u)
    ensures Reaches(w, run, w', p) && Lost(w', u) && w'.truth == w.truth && w'.ticket.NoTicket?
  {
    hide LiveCount;
    run, w' := [], w;
    if w.ticket.Ticket? {
      var m := if w.ticket.stage.AtApi? then Confirm(0, "") else GiveUp(false);
      w' := Act(w, m, p);
      run := [m] + [];
      ReachStep(w, m, w', [], w', p);
    }
  }

  lemma {:induction false} DeleteOthers(w: World, u: string, p: Params) returns (run: seq<Move>)
    requires Lost(w, u)
    ensures Reaches(w, run, w.(truth := map[u := w.truth[u]]), p)
    decreases |w.truth|
  {
    hide Lost, LiveCount;
    LostHasNoHold(w, u);
    run := [];
    if v :| v in w.truth && v != u {
      var w1 := w.(truth := w.truth - {v});
      LostElsewhere(w, w1, u);
      run := DeleteOthers(w1, u, p);
      ReachStep(w, Delete(v), w1, run, w1.(truth := map[u := w.truth[u]]), p);
      run := [Delete(v)] + run;
    } else {
      assert w.truth == map[u := w.truth[u]];
    }
  }

  /** Other slices' objects, sightings and holds do not matter to a lost one. */
  lemma LostElsewhere(w: World, w': World, u: string)
    requires Lost(w, u) && u in w'.truth && w'.truth[u] == w.truth[u] && w'.ticket == w.ticket
    requires u in w'.seen ==> u in w.seen && w'.seen[u] == w.seen[u]
    requires w'.confirmed.Keys <= w.confirmed.Keys && w'.assumed.Keys <= w.assumed.Keys
    ensures Lost(w', u)
  {
  }

  lemma {:induction false} UnseeOthers(w: World, u: string, p: Params) returns (run: seq<Move>, w': World)
    requires w.truth.Keys == {u}
    ensures Reaches(w, run, w', p) && w' == w.(seen := w'.seen) && w'.seen.Keys <= {u}
    ensures u in w'.seen ==> u in w.seen && w'.seen[u] == w.seen[u]
    decreases |w.seen|
  {
    hide LiveCount;
    run, w' := [], w;
    if v :| v in w.seen && v != u {
      var w1 := w.(seen := w.seen - {v});
      run, w' := UnseeOthers(w1, u, p);
      ReachStep(w, ObserveGone(v), w1, run, w', p);
      run := [ObserveGone(v)] + run;
    }
  }

  lemma {:induction false} ForgetOthers(w: World, u: string, p: Params) returns (run: seq<Move>)
    requires w.truth.Keys == {u} && u !in w.assumed && u !in w.confirmed
    ensures Reaches(w, run, w.(assumed := map[], confirmed := map[]), p)
    decreases |w.assumed| + |w.confirmed|
  {
    hide Reaches, Allowed, Guard, Act;
    run := [];
    if v :| v in w.assumed || v in w.confirmed {
      var w1 := w.(assumed := w.assumed - {v}, confirmed := w.confirmed - {v});
      ForgetStep(w, v, p);
      FewerHolds(w.assumed, w.confirmed, v);
      run := ForgetOthers(w1, u, p);
      ReachStep(w, Move.Forget(v), w1, run, w.(assumed := map[], confirmed := map[]), p);
      run := [Move.Forget(v)] + run;
    } else {
      assert w.assumed == map[] && w.confirmed == map[];
      Stays(w, p);
    }
  }

  lemma ForgetStep(w: World, v: string, p: Params)
    requires v !in w.truth
    ensures Allowed(w, Move.Forget(v), p) && Guard(w, Move.Forget(v))
    ensures Act(w, Move.Forget(v), p) == w.(assumed := w.assumed - {v}, confirmed := w.confirmed - {v})
  {
  }

  lemma Stays(w: World, p: Params)
    ensures Reaches(w, [], w, p)
  {
  }

  lemma FewerHolds(a: map<string, Hold>, b: map<string, Hold>, v: string)
    requires v in a || v in b
    ensures |a - {v}| + |b - {v}| < |a| + |b|
  {
    assert (a - {v}).Keys == a.Keys - {v} && (b - {v}).Keys == b.Keys - {v};
    assert |(a - {v}).Keys| == |a - {v}| && |(b - {v}).Keys| == |b - {v}|;
    assert |a.Keys| == |a| && |b.Keys| == |b|;
  }

  /** Alone and lost: the slice is all there is, and nothing accounts for it. */
  ghost predicate Alone(w: World, u: string) {
    Lost(w, u) && w.truth.Keys == {u} && w.seen.Keys <= {u} && w.assumed == map[] && w.confirmed == map[]
        && w.ticket.NoTicket?
  }

  lemma LeftAlone(w: World, u: string, p: Params) returns (run: seq<Move>, w': World)
    requires Lost(w, u)
    ensures Reaches(w, run, w', p) && Alone(w', u) && w'.truth[u] == w.truth[u]
  {
    hide Reaches, Lost;
    var run1, w1 := EndCycle(w, u, p);
    var run2 := DeleteOthers(w1, u, p);
    LostHasNoHold(w1, u);
    var w2 := w1.(truth := map[u := w1.truth[u]]);
    var run3, w3 := UnseeOthers(w2, u, p);
    var run4 := ForgetOthers(w3, u, p);
    w' := w3.(assumed := map[], confirmed := map[]);
    LostElsewhere(w1, w', u);
    ReachThen(w, run1, w1, run2, w2, p);
    ReachThen(w, run1 + run2, w2, run3, w3, p);
    ReachThen(w, run1 + run2 + run3, w3, run4, w', p);
    run := run1 + run2 + run3 + run4;
  }

  lemma LostHasNoHold(w: World, u: string)
    requires Lost(w, u)
    ensures u in w.truth && u !in w.assumed && u !in w.confirmed
  {
  }

  /** A solo slice as large as the whole quota, and the steps that admit it beside a lost one. */
  lemma WholeQuotaAdmitted(w: World, u: string, v: string, p: Params) returns (run: seq<Move>, w': World)
    requires Alone(w, u) && v != u && p.max > 0
    ensures Reaches(w, run, w', p)
    ensures TrulyHeld(w') == HeldBytes(w.truth[u]) + p.max
  {
    hide SumBy, LiveCount;
    var s, h := Listed("", false, false, 0, p.max), Hold(p.namespace, "", p.max, 0);
    var w1 := w.(truth := w.truth[v := s]);
    var w2 := w1.(seen := w.seen[v := s]);
    var w3 := w2.(ticket := Ticket(v, "", p.max, Admitted));
    w' := w3.(assumed := map[v := h], ticket := Ticket(v, "", p.max, Holding));
    assert Act(w, Create(v, s), p) == w1 && Act(w1, Observe(v, s), p) == w2;
    NothingSeenUsed(w2, p);
    assert Act(w2, Ask(v, false), p) == w3;
    assert Act(w3, Take(h), p) == w';
    HeldByTwo(w', u, v);
    hide Act;
    assert Reaches(w', [], w', p);
    ReachStep(w3, Take(h), w', [], w', p);
    ReachStep(w2, Ask(v, false), w3, [Take(h)] + [], w', p);
    ReachStep(w1, Observe(v, s), w2, [Ask(v, false)] + ([Take(h)] + []), w', p);
    run := [Create(v, s)] + ([Observe(v, s)] + ([Ask(v, false)] + ([Take(h)] + [])));
    ReachStep(w, Create(v, s), w1, [Observe(v, s)] + ([Ask(v, false)] + ([Take(h)] + [])), w', p);
  }

  /** With no holds and nothing seen bound, the checker counts nothing. */
  lemma NothingSeenUsed(w: World, p: Params)
    requires w.assumed == map[] && w.confirmed == map[] && forall v :: v in w.seen ==> !w.seen[v].bound
    ensures SumBy(w.seen, UsedWeight("")) == 0 && PendingBytes(CacheOf(w), p.namespace, CountedSet(w.seen, "")) == 0
  {
    SumZero(w.seen, UsedWeight(""));
    SumZero(w.assumed, PendingWeight(p.namespace, CountedSet(w.seen, "")));
    SumZero(w.confirmed, PendingWeight(p.namespace, CountedSet(w.seen, "")));
  }

  lemma HeldByTwo(w: World, u: string, v: string)
    requires u != v && w.truth.Keys == {u, v} && w.truth[u].bound && !w.truth[u].over
    requires !w.truth[v].bound && !w.truth[v].over && v in w.assumed
    ensures TrulyHeld(w) == HeldBytes(w.truth[u]) + w.truth[v].requested
  {
    var weight := TrueWeight(w.assumed.Keys);
    SumRemove(w.truth, weight, u);
    SumRemove(w.truth - {u}, weight, v);
    SumZero(w.truth - {u} - {v}, weight);
    hide SumBy;
  }

  /** Some guarded continuation of a world with a lost slice holds more than the quota. */
  lemma LostOverdraws(w: World, u: string, p: Params) returns (run: seq<Move>)
    requires Lost(w, u) && HeldBytes(w.truth[u]) > 0 && TrulyHeld(w) >= HeldBytes(w.truth[u])
    ensures AllowedRun(w, run, p) && GuardedRun(w, run, p) && TrulyHeld(ActAll(w, run, p)) > p.max
  {
    hide TrulyHeld, Lost;
    if p.max <= 0 {
      run := [];
    } else {
      var run1, w1 := LeftAlone(w, u, p);
      var run2, w2 := WholeQuotaAdmitted(w1, u, u + "'", p);
      ReachThen(w, run1, w1, run2, w2, p);
      run := run1 + run2;
    }
  }

  /** The bytes of one live bound slice are part of what is held. */
  lemma HeldAtLeast(w: World, u: string, p: Params)
    requires Lost(w, u) && forall v :: v in w.truth ==> Sane(w.truth[v], p)
    ensures TrulyHeld(w) >= HeldBytes(w.truth[u])
  {
    SumAtLeast(w.truth, TrueWeight(w.assumed.Keys), u);
    hide SumBy;
  }

  lemma SaneAfter(w: World, m: Move, p: Params)
    requires Slices(w, p) && Allowed(w, m, p) && !Guard(w, m)
    ensures forall v :: v in Act(w, m, p).truth ==> Sane(Act(w, m, p).truth[v], p)
  {
    hide LiveCount, Covered, Lags;
  }

  /** After a move from a safe world, no guarded continuation ever exceeds the quota, if and only if the guard held. Of
      all moves only a half-done bind and a node removal have one: no slice may lose its hold while its bind is neither
      seen by the informer nor over nor otherwise accounted for. */
  lemma MoveExact(w: World, m: Move, p: Params)
    requires Safe(w, p) && Allowed(w, m, p)
    ensures var w' := Act(w, m, p);
            (forall run :: AllowedRun(w', run, p) && GuardedRun(w', run, p) ==> TrulyHeld(ActAll(w', run, p)) <= p.max)
            <==> Guard(w, m)
  {
    var w' := Act(w, m, p);
    if Guard(w, m) {
      MoveKeeps(w, m, p);
      hide Safe, Act, Allowed, Guard, TrulyHeld;
      forall run | AllowedRun(w', run, p) && GuardedRun(w', run, p) ensures TrulyHeld(ActAll(w', run, p)) <= p.max {
        QuotaNeverExceeded(w', run, p);
      }
    } else {
      var u := UnguardedLoses(w, m, p);
      SaneAfter(w, m, p);
      hide Act, Allowed, Guard, TrulyHeld, Lost, Slices, Holds, TicketOk, GangsFit, WithinQuota;
      HeldAtLeast(w', u, p);
      var run := LostOverdraws(w', u, p);
    }
  }

  // ----- The two escapes, run to the end -----

  // Two solo slices of 10 under a quota of 10; the worker is about to bind "a", which nobody has seen bound.
  const TenEach := Params("ns", 10, map[], map[])
  const Ten := Listed("", false, false, 0, 10)
  const HoldA := Hold("ns", "n", 10, 0)
  const HoldB := Hold("ns", "m", 10, 0)
  const Unbound := map["a" := Ten, "b" := Ten]
  const BoundA := map["a" := Ten.(bound := true), "b" := Ten]
  const BeforeBind := World(Unbound, Unbound, map["a" := HoldA], map[], Ticket("a", "", 10, Pinned))
  const AfterBind := World(BoundA, Unbound, map[], map["a" := HoldA], NoTicket)
  const Hidden := World(BoundA, Unbound, map[], map[], NoTicket)
  const Overdrawn := World(BoundA, Unbound, map["b" := HoldB], map[], Ticket("b", "", 10, Holding))

  lemma SumsOfTwo(assumed: set<string>, t: Ticket)
    ensures SumBy(Unbound, TrueWeight(assumed))
        == (if "a" in assumed then 10 else 0) + (if "b" in assumed then 10 else 0)
    ensures SumBy(BoundA, TrueWeight(assumed)) == 10 + (if "b" in assumed then 10 else 0)
    ensures t == Ticket("a", "", 10, Pinned) ==>
              SumBy(Unbound, OtherWeight(assumed, t)) == if "b" in assumed then 10 else 0
  {
    SumTwo(Unbound, TrueWeight(assumed));
    SumTwo(BoundA, TrueWeight(assumed));
    SumTwo(Unbound, OtherWeight(assumed, t));
    hide SumBy;
  }

  /** Once "a" is hidden, the full namespace admits "b" and ends up holding 20 of 10. */
  lemma HiddenAdmits()
    ensures Allowed(Hidden, Ask("b", false), TenEach)
    ensures var w := Act(Hidden, Ask("b", false), TenEach);
        Allowed(w, Take(HoldB), TenEach) && Act(w, Take(HoldB), TenEach) == Overdrawn
    ensures TrulyHeld(Overdrawn) == 20 > TenEach.max
  {
    hide SumBy, LiveCount;
    SumsOfTwo({"b"}, NoTicket);
    SumTwo(Unbound, UsedWeight(""));
    SumZero(Hidden.assumed, PendingWeight("ns", CountedSet(Unbound, "")));
    SumZero(Hidden.confirmed, PendingWeight("ns", CountedSet(Unbound, "")));
    var w := Act(Hidden, Ask("b", false), TenEach);
    assert w == Hidden.(ticket := Ticket("b", "", 10, Admitted));
    assert map["b" := HoldB].Keys == {"b"};
  }

  lemma BeforeBindSafe()
    ensures Safe(BeforeBind, TenEach)
  {
    hide SumBy, LiveCount;
    assert BeforeBind.assumed.Keys == {"a"};
    SumsOfTwo({"a"}, BeforeBind.ticket);
  }

  lemma AfterBindSafe()
    ensures Safe(AfterBind, TenEach)
  {
    hide SumBy, LiveCount;
    assert AfterBind.assumed.Keys == {};
    SumsOfTwo({}, NoTicket);
  }

  /** A half-done bind, an Ask and a Take: from a safe world a quota of 10 holds 20. */
  lemma PartialBindEscapesQuota()
    ensures Safe(BeforeBind, TenEach) && AllowedRun(BeforeBind, [HalfBind] + [Ask("b", false), Take(HoldB)], TenEach)
    ensures TrulyHeld(ActAll(BeforeBind, [HalfBind] + [Ask("b", false), Take(HoldB)], TenEach)) == 20 > TenEach.max
  {
    BeforeBindSafe();
    assert Act(BeforeBind, HalfBind, TenEach) == Hidden by {
      assert Act(BeforeBind, HalfBind, TenEach).truth == BoundA && Act(BeforeBind, HalfBind, TenEach).assumed == map[];
    }
    EscapeFrom(BeforeBind, HalfBind);
  }

  /** The same after a node leaves before the informer has shown the bind. */
  lemma UnseenRemovalEscapesQuota()
    ensures Safe(AfterBind, TenEach)
    ensures AllowedRun(AfterBind, [NodeGone({"a"})] + [Ask("b", false), Take(HoldB)], TenEach)
    ensures TrulyHeld(ActAll(AfterBind, [NodeGone({"a"})] + [Ask("b", false), Take(HoldB)], TenEach))
        == 20 > TenEach.max
  {
    AfterBindSafe();
    assert Act(AfterBind, NodeGone({"a"}), TenEach) == Hidden by {
      assert Act(AfterBind, NodeGone({"a"}), TenEach).confirmed == map[];
    }
    EscapeFrom(AfterBind, NodeGone({"a"}));
  }

  lemma EscapeFrom(w: World, m: Move)
    requires Allowed(w, m, TenEach) && Act(w, m, TenEach) == Hidden
    ensures var run := [m] + [Ask("b", false), Take(HoldB)];
        AllowedRun(w, run, TenEach) && ActAll(w, run, TenEach) == Overdrawn
    ensures TrulyHeld(Overdrawn) == 20
  {
    HiddenAdmits();
    hide Allowed, Act, TrulyHeld;
    var ask, take := Ask("b", false), Take(HoldB);
    var w1 := Act(Hidden, ask, TenEach);
    assert ([m] + [ask, take])[1..] == [ask, take] && [ask, take][1..] == [take] && [take][1..] == [];
    assert AllowedRun(Overdrawn, [], TenEach);
    assert AllowedRun(w1, [take], TenEach) && ActAll(w1, [take], TenEach) == Overdrawn;
    assert AllowedRun(Hidden, [ask, take], TenEach) && ActAll(Hidden, [ask, take], TenEach) == Overdrawn;
  }

  lemma SumTwo(m: map<string, Listed>, w: (string, Listed) -> int)
    requires m.Keys == {"a", "b"}
    ensures SumBy(m, w) == w("a", m["a"]) + w("b", m["b"])
  {
    SumRemove(m, w, "a");
    SumRemove(m - {"a"}, w, "b");
    SumZero(m - {"a"} - {"b"}, w);
  }
}
