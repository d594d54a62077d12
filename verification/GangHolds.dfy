/**
 * The gate and the cache's speculative holds together: scheduling cycles of many slices, the
 * TTL reaper and the clock interleave freely. Quorum tips only while every counted member
 * still has an unexpired hold.
 */
module GangHolds {
  import opened GangGates
  import opened GangInvariant
  import VRAMCaches
  import CacheConservation

  const MAX_GATE_DELAY := 10 * SECOND

  /** Where a slice's scheduling cycle stands. */
  datatype Cycle = Reserved(at: int) | RollingBack | Binding

  /** `holds` maps a slice to the expiry of its assumed hold. */
  datatype World = World(gate: GateState, holds: map<string, int>, cycles: map<string, Cycle>, now: int)

  datatype Move =
    | Tick(to: int)
    | ReapHolds
    | Begin(slice: string)          // fast-forward pin, or fresh reserve
    | Gate(call: Call)
    | GiveBack(slice: string)       // the deferred rollback
    | EndBind(slice: string)        // confirmed, or rolled back after a failed bind

  ghost function Act(w: World, m: Move): World {
    match m
    case Tick(t) => w.(now := t)
    case ReapHolds => w.(holds := map u | u in w.holds && !(w.now > w.holds[u]) :: w.holds[u])
    case Begin(u) =>
      w.(holds := w.holds[u := w.now + if u in w.holds then GANG_HOLD_TTL else RESERVE_TTL],
          cycles := w.cycles[u := Reserved(w.now)])
    case Gate(c) =>
      var o := Check(w.gate, c);
      w.(gate := o.gate,
         cycles := match o.verdict
                   case Deferred => w.cycles - {c.slice}
                   case Allowed => w.cycles[c.slice := Binding]
                   case NotApplicable => w.cycles[c.slice := Binding]
                   case _ => w.cycles[c.slice := RollingBack])
    case GiveBack(u) => w.(holds := w.holds - {u}, cycles := w.cycles - {u})
    case EndBind(u) => w.(holds := w.holds - {u}, cycles := w.cycles - {u})
  }

  /** One cycle per slice at a time, a clock that does not go back, and a gate check of a gang member at
      most ten seconds after its cycle took or pinned the hold. A slice's reservation never changes. */
  ghost predicate Scheduled(w: World, m: Move, keyOf: map<string, string>) {
    match m
    case Tick(t) => w.now <= t
    case ReapHolds => true
    case Begin(u) => u !in w.cycles
    case Gate(c) =>
      && c.slice in w.cycles && w.cycles[c.slice].Reserved? && w.now <= w.cycles[c.slice].at + MAX_GATE_DELAY
      && c.now == w.now && c.reapAt <= c.now && c.reservation != "" && c.slice in keyOf && keyOf[c.slice] == Key(c)
    case GiveBack(u) => u in w.cycles && w.cycles[u].RollingBack?
    case EndBind(u) => u in w.cycles && w.cycles[u].Binding?
  }

  /** The read shows the reservation object, finished or naming a real gang. A cycle that cannot even read its slice
      ends like one whose reservation is `Unreadable`: the gate is not touched and the hold is given back. */
  predicate Seen(r: Reading) {
    r.Found? && (r.terminal || r.gangSize > 0)
  }

  /** The caller is counted toward a quorum that may still tip. */
  predicate Counted(w: World, c: Call) {
    && Key(c) in w.gate.cohorts && !w.gate.cohorts[Key(c)].released && c.slice in w.gate.cohorts[Key(c)].members
    && w.now <= w.gate.cohorts[Key(c)].members[c.slice].heldAt + ADMISSION_TIMEOUT
  }

  /** The re-check of a counted member sees its reservation. */
  predicate Guard(w: World, m: Move) {
    m.Gate? ==> Seen(m.call.reading) || !Counted(w, m.call)
  }

  /** A hold that outlives the tenure its member was counted in. */
  predicate HoldFor(w: World, u: string, since: int, life: int) {
    (u in w.holds && w.holds[u] >= since + life) || w.now > since + life
  }

  ghost predicate MemberOk(w: World, k: string, u: string, m: Member, keyOf: map<string, string>) {
    && u in keyOf && keyOf[u] == k
    && w.gate.admittingSince <= m.heldAt <= w.now
    && HoldFor(w, u, m.heldAt, ADMISSION_TIMEOUT)
    && (u in w.cycles && !w.cycles[u].Reserved? ==> w.now > m.heldAt + ADMISSION_TIMEOUT)
  }

  ghost predicate CohortOk(w: World, k: string, keyOf: map<string, string>)
    requires k in w.gate.cohorts
  {
    forall u :: u in w.gate.cohorts[k].members ==> MemberOk(w, k, u, w.gate.cohorts[k].members[u], keyOf)
  }

  ghost predicate Backed(w: World, keyOf: map<string, string>) {
    && OneForming(w.gate)
    && (w.gate.admitting != "" ==> w.gate.admittingSince <= w.now)
    && (forall k :: k in w.gate.cohorts && !w.gate.cohorts[k].released ==> CohortOk(w, k, keyOf))
    && (forall u :: u in w.cycles && w.cycles[u].Reserved? ==>
          w.cycles[u].at <= w.now && HoldFor(w, u, w.cycles[u].at, RESERVE_TTL))
  }

  /** A check that competes for the slot, split at its stages. */
  lemma CheckShape(g: GateState, c: Call)
    requires OneForming(g) && c.reservation != "" && c.reading.Found? && !c.reading.terminal && c.reading.gangSize > 0
    ensures var g1, k := Entered(g, c), Key(c);
            && OneForming(g1) && k in g1.cohorts
            && g1.admittingSince == g.admittingSince && (g1.admitting == g.admitting || g1.admitting == "")
            && Check(g, c) == if g1.cohorts[k].released then Outcome(g1, Allowed, false)
                else Compete(g1, c, c.reading.gangSize)
  {
    ReapKeepsOneForming(g, c.reapAt);
    EnrollKeepsOneForming(Reap(g, c.reapAt), Key(c), c.reading.uid, c.reading.gangSize, c.priority, c.now);
    hide OneForming, Compete;
  }

  /** Entering adds no member to any forming gang. */
  lemma EnteredMembers(g: GateState, c: Call, k: string, u: string)
    requires c.reading.Found?
    requires var g1 := Entered(g, c); k in g1.cohorts && !g1.cohorts[k].released && u in g1.cohorts[k].members
    ensures k in g.cohorts && !g.cohorts[k].released && u in g.cohorts[k].members
    ensures Entered(g, c).cohorts[k].members[u] == g.cohorts[k].members[u]
  {
  }

  /** The competition: only the caller may be added, and only as the slot holder. */
  lemma CompeteMembers(g1: GateState, c: Call, size: int, k: string, u: string)
    requires OneForming(g1) && Key(c) in g1.cohorts && !g1.cohorts[Key(c)].released
    ensures var o := Compete(g1, c, size);
            k in o.gate.cohorts && u in o.gate.cohorts[k].members
            && (o.gate.cohorts[k].released ==> k == Key(c) && o.verdict == Allowed) ==>
              var m := o.gate.cohorts[k].members[u];
              if u == c.slice && k == Key(c) then
                o.verdict != Wait && m.heldAt == c.now
                && (o.gate.admittingSince == c.now
                    || (o.gate.admittingSince == g1.admittingSince && g1.admitting != ""))
              else
                k in g1.cohorts && !g1.cohorts[k].released && u in g1.cohorts[k].members
                && m == g1.cohorts[k].members[u] && o.gate.admittingSince == g1.admittingSince
                && c.now <= g1.admittingSince + ADMISSION_TIMEOUT
  {
    CompeteCases(g1, c, size);
    FreeStalledInherits(g1, c.now);
    FreedRsv(g1, c.now, Key(c));
    hide Compete, OneForming;
  }

  /** After the check, `u` is counted in a gang that is forming, or that this very check tips. */
  predicate CountedAfter(o: Outcome, c: Call, k: string, u: string) {
    && k in o.gate.cohorts && u in o.gate.cohorts[k].members
    && (o.gate.cohorts[k].released ==> k == Key(c) && o.verdict == Allowed && o.joined)
  }

  /** Where the members of a forming or tipping gang come from in one check of a reachable gate. */
  lemma CheckMembers(g: GateState, c: Call, k: string, u: string)
    requires OneForming(g) && c.reservation != "" && Seen(c.reading)
    ensures CountedAfter(Check(g, c), c, k, u) ==>
              var o := Check(g, c); var m := o.gate.cohorts[k].members[u];
              && (u == c.slice && k == Key(c) ==> o.joined)
              && if u == c.slice && k == Key(c) && !c.reading.terminal && o.joined then
                   m.heldAt == c.now
                   && (o.gate.admittingSince == c.now
                       || (o.gate.admittingSince == g.admittingSince && g.admitting != ""))
                 else
                   k in g.cohorts && !g.cohorts[k].released && u in g.cohorts[k].members
                   && m == g.cohorts[k].members[u] && o.gate.admittingSince == g.admittingSince
                   && (o.joined ==> c.now <= g.admittingSince + ADMISSION_TIMEOUT)
  {
    if CountedAfter(Check(g, c), c, k, u) && !c.reading.terminal {
      CheckShape(g, c);
      var g1 := Entered(g, c);
      if g1.cohorts[Key(c)].released {
        EnteredMembers(g, c, k, u);
        hide Check, Enroll, Compete;
      } else {
        hide Check;
        CompeteMembers(g1, c, c.reading.gangSize, k, u);
        if !(u == c.slice && k == Key(c)) { EnteredMembers(g, c, k, u); }
        JoinedUnlessWait(g1, c, c.reading.gangSize);
        hide Enroll, Compete;
      }
    }
  }

  lemma JoinedUnlessWait(g1: GateState, c: Call, size: int)
    requires OneForming(g1) && Key(c) in g1.cohorts && !g1.cohorts[Key(c)].released
    ensures Compete(g1, c, size).joined <==> Compete(g1, c, size).verdict != Wait
    ensures Compete(g1, c, size).joined ==>
      var o := Compete(g1, c, size);
      Key(c) in o.gate.cohorts && o.verdict == (if o.gate.cohorts[Key(c)].released then Allowed else Deferred)
      && (o.verdict == Allowed ==> |o.gate.cohorts[Key(c)].members| >= size)
  {
    CompeteCases(g1, c, size);
    hide Compete;
  }

  lemma CheckKeepsTimely(g: GateState, c: Call)
    requires OneForming(g) && (g.admitting != "" ==> g.admittingSince <= c.now)
    ensures var g' := Check(g, c).gate; g'.admitting != "" ==> g'.admittingSince <= c.now
  {
    hide OneForming;
    if c.reservation != "" && c.reading.Found? && !c.reading.terminal && c.reading.gangSize > 0 {
      CheckShape(g, c);
      hide Check, Enroll, Compete;
      var g1 := Entered(g, c);
      if !g1.cohorts[Key(c)].released {
        CompeteCases(g1, c, c.reading.gangSize);
      }
    }
  }

  /** A waiting or rejected slice is no longer counted anywhere in a forming gang. */
  lemma GateMemberOk(w: World, c: Call, keyOf: map<string, string>, k: string, u: string)
    requires Backed(w, keyOf) && Scheduled(w, Gate(c), keyOf) && Seen(c.reading)
    ensures var g' := Check(w.gate, c).gate;
            k in g'.cohorts && !g'.cohorts[k].released && u in g'.cohorts[k].members ==>
              MemberOk(Act(w, Gate(c)), k, u, g'.cohorts[k].members[u], keyOf)
  {
    CheckMembers(w.gate, c, k, u);
    CallerVerdict(w.gate, c);
    hide Check, OneForming;
    var g' := Check(w.gate, c).gate;
    if u == c.slice && k == Key(c) {
      assert HoldFor(w, u, w.cycles[u].at, RESERVE_TTL);
    } else if k in g'.cohorts && !g'.cohorts[k].released && u in g'.cohorts[k].members {
      assert CohortOk(w, k, keyOf);
      assert MemberOk(w, k, u, w.gate.cohorts[k].members[u], keyOf);
    }
  }

  lemma CallerVerdict(g: GateState, c: Call)
    requires OneForming(g) && c.reservation != "" && Seen(c.reading)
    ensures var o := Check(g, c);
            o.joined && Key(c) in o.gate.cohorts && !o.gate.cohorts[Key(c)].released ==> o.verdict == Deferred
  {
    if !c.reading.terminal {
      CheckShape(g, c);
      if !Entered(g, c).cohorts[Key(c)].released { JoinedUnlessWait(Entered(g, c), c, c.reading.gangSize); }
      hide Check, Compete, Enroll;
    }
  }

  lemma SeenKeepsBacked(w: World, c: Call, keyOf: map<string, string>)
    requires Backed(w, keyOf) && Scheduled(w, Gate(c), keyOf) && Seen(c.reading)
    ensures Backed(Act(w, Gate(c)), keyOf)
  {
    var w', g' := Act(w, Gate(c)), Check(w.gate, c).gate;
    CheckKeepsOneForming(w.gate, c);
    CheckKeepsTimely(w.gate, c);
    forall k | k in g'.cohorts && !g'.cohorts[k].released ensures CohortOk(w', k, keyOf) {
      forall u | u in g'.cohorts[k].members ensures MemberOk(w', k, u, g'.cohorts[k].members[u], keyOf) {
        GateMemberOk(w, c, keyOf, k, u);
      }
    }
    hide Check, OneForming, CohortOk;
  }

  lemma UnseenKeepsBacked(w: World, c: Call, keyOf: map<string, string>)
    requires Backed(w, keyOf) && Scheduled(w, Gate(c), keyOf) && !Seen(c.reading) && !Counted(w, c)
    ensures Backed(Act(w, Gate(c)), keyOf)
  {
    hide OneForming;
    var w' := Act(w, Gate(c));
    assert w'.gate == w.gate;
    forall k | k in w.gate.cohorts && !w.gate.cohorts[k].released ensures CohortOk(w', k, keyOf) {
      assert CohortOk(w, k, keyOf);
      forall u | u in w.gate.cohorts[k].members ensures MemberOk(w', k, u, w.gate.cohorts[k].members[u], keyOf) {
        assert MemberOk(w, k, u, w.gate.cohorts[k].members[u], keyOf);
      }
    }
  }

  /** A check keeps every counted member backed if and only if it sees the reservation or its caller is not counted. */
  lemma GateExact(w: World, c: Call, keyOf: map<string, string>)
    requires Backed(w, keyOf) && Scheduled(w, Gate(c), keyOf)
    ensures Backed(Act(w, Gate(c)), keyOf) <==> Guard(w, Gate(c))
  {
    if Seen(c.reading) {
      SeenKeepsBacked(w, c, keyOf);
    } else if !Counted(w, c) {
      UnseenKeepsBacked(w, c, keyOf);
    } else {
      var w', k := Act(w, Gate(c)), Key(c);
      assert !MemberOk(w', k, c.slice, w'.gate.cohorts[k].members[c.slice], keyOf);
      assert !CohortOk(w', k, keyOf);
    }
    hide Backed, Act;
  }

  lemma OtherMoveKeepsBacked(w: World, m: Move, keyOf: map<string, string>)
    requires Backed(w, keyOf) && Scheduled(w, m, keyOf) && !m.Gate?
    ensures Backed(Act(w, m), keyOf)
  {
    var w' := Act(w, m);
    hide OneForming;
    forall k | k in w'.gate.cohorts && !w'.gate.cohorts[k].released ensures CohortOk(w', k, keyOf) {
      assert CohortOk(w, k, keyOf);
      forall u | u in w'.gate.cohorts[k].members ensures MemberOk(w', k, u, w'.gate.cohorts[k].members[u], keyOf) {
        assert MemberOk(w, k, u, w.gate.cohorts[k].members[u], keyOf);
      }
    }
  }

  /** The moment a check tips the cohort. */
  ghost predicate Tips(w: World, m: Move) {
    m.Gate? && Check(w.gate, m.call).verdict == Allowed && Check(w.gate, m.call).joined
  }

  /** A joining check has seen a running gang. */
  lemma TipsSeen(g: GateState, c: Call)
    ensures Check(g, c).joined ==>
              c.reading.Found? && !c.reading.terminal && c.reading.gangSize > 0 && c.reservation != ""
  {
  }

  /** Every member the quorum counted holds its capacity, unexpired, at the moment of the tip. */
  lemma TipIsBacked(w: World, m: Move, keyOf: map<string, string>)
    requires Backed(w, keyOf) && Scheduled(w, m, keyOf)
    ensures Tips(w, m) ==>
              var o := Check(w.gate, m.call);
              && Key(m.call) in o.gate.cohorts
              && |o.gate.cohorts[Key(m.call)].members| >= m.call.reading.gangSize
              && forall u :: u in o.gate.cohorts[Key(m.call)].members ==> u in w.holds && w.now <= w.holds[u]
  {
    if !Tips(w, m) { return; }
    var c, g := m.call, w.gate;
    var k := Key(c);
    TipsSeen(g, c);
    CheckShape(g, c);
    JoinedUnlessWait(Entered(g, c), c, c.reading.gangSize);
    var o := Check(g, c);
    forall u | u in o.gate.cohorts[k].members ensures u in w.holds && w.now <= w.holds[u] {
      CheckMembers(g, c, k, u);
      hide Check, Compete, Enroll, OneForming;
      if u == c.slice {
        assert HoldFor(w, u, w.cycles[u].at, RESERVE_TTL);
      } else {
        assert CohortOk(w, k, keyOf);
        assert MemberOk(w, k, u, g.cohorts[k].members[u], keyOf);
      }
    }
    hide Check, Compete, Enroll, OneForming;
  }

  ghost function ActAll(w: World, run: seq<Move>): World
    decreases |run|
  {
    if run == [] then w else Act(ActAll(w, run[..|run| - 1]), run[|run| - 1])
  }

  ghost predicate ScheduledRun(w: World, run: seq<Move>, keyOf: map<string, string>)
    decreases |run|
  {
    run == [] || (var rest := run[..|run| - 1];
        ScheduledRun(w, rest, keyOf) && Scheduled(ActAll(w, rest), run[|run| - 1], keyOf))
  }

  ghost predicate GuardedRun(w: World, run: seq<Move>)
    decreases |run|
  {
    run == [] || (var rest := run[..|run| - 1]; GuardedRun(w, rest) && Guard(ActAll(w, rest), run[|run| - 1]))
  }

  lemma {:induction false} RunKeepsBacked(run: seq<Move>, now: int, keyOf: map<string, string>)
    requires var w0 := World(EmptyGate, map[], map[], now); ScheduledRun(w0, run, keyOf) && GuardedRun(w0, run)
    ensures Backed(ActAll(World(EmptyGate, map[], map[], now), run), keyOf)
    decreases |run|
  {
    var w0 := World(EmptyGate, map[], map[], now);
    if run != [] {
      var rest, m := run[..|run| - 1], run[|run| - 1];
      RunKeepsBacked(rest, now, keyOf);
      hide Backed, Act;
      if m.Gate? {
        GateExact(ActAll(w0, rest), m.call, keyOf);
      } else {
        OtherMoveKeepsBacked(ActAll(w0, rest), m, keyOf);
      }
    }
  }

  /** In every guarded run, whenever a check tips a cohort, at least the gang size of members are counted and every
      one of them has an unexpired hold in the cache at that moment. */
  lemma QuorumIsHeld(run: seq<Move>, m: Move, now: int, keyOf: map<string, string>)
    requires var w0 := World(EmptyGate, map[], map[], now);
             ScheduledRun(w0, run, keyOf) && GuardedRun(w0, run) && Scheduled(ActAll(w0, run), m, keyOf)
    ensures var w := ActAll(World(EmptyGate, map[], map[], now), run);
            Tips(w, m) ==>
              var o := Check(w.gate, m.call);
              && Key(m.call) in o.gate.cohorts
              && |o.gate.cohorts[Key(m.call)].members| >= m.call.reading.gangSize
              && forall u :: u in o.gate.cohorts[Key(m.call)].members ==> u in w.holds && w.now <= w.holds[u]
  {
    RunKeepsBacked(run, now, keyOf);
    TipIsBacked(ActAll(World(EmptyGate, map[], map[], now), run), m, keyOf);
  }

  // ----- The same moves in the cache -----

  function Expiries(c: VRAMCaches.CacheState): map<string, int> {
    map u | u in c.assumed :: c.assumed[u].expires
  }

  predicate TakenAs(c: VRAMCaches.CacheState, c': VRAMCaches.CacheState, u: string, h: VRAMCaches.Hold) {
    && VRAMCaches.AssumeVerdict(c, u, h.node, h.bytes) == VRAMCaches.Assumed
    && c' == VRAMCaches.Assume(c, u, h.namespace, h.node, h.bytes, h.expires)
  }

  predicate ConfirmedAs(c: VRAMCaches.CacheState, c': VRAMCaches.CacheState, u: string, h: VRAMCaches.Hold) {
    c' == VRAMCaches.Confirm(c, u, h.namespace, h.node, h.bytes, h.expires)
  }

  /** `c'` is what the cache makes of the move. */
  ghost predicate Follows(c: VRAMCaches.CacheState, c': VRAMCaches.CacheState, w: World, m: Move) {
    match m
    case Begin(u) =>
      if u in c.assumed then c' == VRAMCaches.Pin(c, u, w.now + GANG_HOLD_TTL)
      else exists h :: TakenAs(c, c', u, h) && h.expires == w.now + RESERVE_TTL
    case ReapHolds =>
      exists order ::
          VRAMCaches.Enumerates(order, VRAMCaches.Expired(c, w.now)) && c' == VRAMCaches.RollbackAll(c, order)
    case GiveBack(u) => c' == VRAMCaches.Rollback(c, u)
    case EndBind(u) => c' == VRAMCaches.Rollback(c, u) || exists h :: ConfirmedAs(c, c', u, h)
    case _ => c' == c
  }

  lemma BeginFollows(c: VRAMCaches.CacheState, c': VRAMCaches.CacheState, w: World, u: string)
    requires Expiries(c) == w.holds && Follows(c, c', w, Begin(u))
    ensures Expiries(c') == Act(w, Begin(u)).holds
  {
    hide TakenAs;
    if u !in c.assumed {
      var h :| TakenAs(c, c', u, h) && h.expires == w.now + RESERVE_TTL;
      TakenHolds(c, c', u, h);
    }
  }

  lemma TakenHolds(c: VRAMCaches.CacheState, c': VRAMCaches.CacheState, u: string, h: VRAMCaches.Hold)
    requires TakenAs(c, c', u, h)
    ensures c'.assumed == c.assumed[u := h]
  {
    hide VRAMCaches.Recalc;
    assert VRAMCaches.Hold(h.namespace, h.node, h.bytes, h.expires) == h;
  }

  lemma EndFollows(c: VRAMCaches.CacheState, c': VRAMCaches.CacheState, u: string)
    requires c' == VRAMCaches.Rollback(c, u) || exists h :: ConfirmedAs(c, c', u, h)
    ensures Expiries(c') == Expiries(c) - {u}
  {
    hide VRAMCaches.Rollback, VRAMCaches.Recalc;
    CacheConservation.DropHoldFrame(c, u, "");
    assert c'.assumed == c.assumed - {u};
  }

  /** The holds of the world are the assumed holds of the cache, whichever section a move runs. */
  lemma CacheFollows(c: VRAMCaches.CacheState, c': VRAMCaches.CacheState, w: World, m: Move)
    requires Expiries(c) == w.holds && Follows(c, c', w, m)
    ensures Expiries(c') == Act(w, m).holds
  {
    hide VRAMCaches.Rollback, VRAMCaches.RollbackAll, Check, ConfirmedAs;
    match m
    case Begin(u) => hide Follows, Act; BeginFollows(c, c', w, u);
    case ReapHolds =>
      var order :| VRAMCaches.Enumerates(order, VRAMCaches.Expired(c, w.now)) && c' == VRAMCaches.RollbackAll(c, order);
      ReapedHolds(c, order);
    case GiveBack(u) => EndFollows(c, c', u);
    case EndBind(u) => EndFollows(c, c', u);
    case _ =>
  }

  lemma {:induction false} ReapedHolds(c: VRAMCaches.CacheState, order: seq<string>)
    ensures forall u :: u in VRAMCaches.RollbackAll(c, order).assumed <==> u in c.assumed && u !in order
    ensures forall u :: u in c.assumed && u !in order ==> VRAMCaches.RollbackAll(c, order).assumed[u] == c.assumed[u]
    decreases |order|
  {
    hide VRAMCaches.Rollback;
    if order != [] {
      var rest, last := order[..|order| - 1], order[|order| - 1];
      ReapedHolds(c, rest);
      CacheConservation.DropHoldFrame(VRAMCaches.RollbackAll(c, rest), last, "");
      assert order == rest + [last];
    }
  }

  // ----- Without the guard -----

  /** The sibling `d` that would complete the gang of `c`, on time and of the same reservation object. */
  predicate Completes(w: World, c: Call, d: Call, keyOf: map<string, string>)
    requires Counted(w, c)
  {
    var cohort := w.gate.cohorts[Key(c)];
    && d.reservation != "" && Key(d) == Key(c) && d.slice in keyOf && keyOf[d.slice] == Key(d)
    && d.slice != c.slice && d.slice !in cohort.members && d.slice !in w.cycles
    && d.now == w.now && d.reapAt <= d.now <= w.gate.admittingSince + ADMISSION_TIMEOUT
        && d.reapAt - cohort.createdAt <= MAX_HOLD_AGE
    && d.reading.Found? && !d.reading.terminal && d.reading.uid == cohort.rsvUID
        && 0 < d.reading.gangSize <= |cohort.members| + 1
  }

  /** How the caller's cycle ends: rolled back, or, told that no gang applies, bound alone. Either way its hold is
      gone. */
  ghost function End(w: World, c: Call): Move {
    if Check(w.gate, c).verdict == NotApplicable then EndBind(c.slice) else GiveBack(c.slice)
  }

  /** The caller's re-check, the end of its cycle, and the sibling's reserve. */
  ghost function Slip(w: World, c: Call, d: Call): World {
    Act(Act(Act(w, Gate(c)), End(w, c)), Begin(d.slice))
  }

  /** When a counted member's re-check does not see the reservation, the member gives its hold up and stays counted,
      and the sibling that completes the gang tips a quorum with a member that has no hold: in every such state. */
  lemma UnseenReservationTipsUnheld(w: World, c: Call, d: Call, keyOf: map<string, string>)
    requires Backed(w, keyOf) && Scheduled(w, Gate(c), keyOf) && !Seen(c.reading) && Counted(w, c)
    requires Completes(w, c, d, keyOf)
    ensures var w1 := Act(w, Gate(c)); var w2 := Act(w1, End(w, c));
            Scheduled(w1, End(w, c), keyOf) && Scheduled(w2, Begin(d.slice), keyOf)
                && Scheduled(Slip(w, c, d), Gate(d), keyOf)
    ensures Tips(Slip(w, c, d), Gate(d))
    ensures c.slice in Check(w.gate, d).gate.cohorts[Key(d)].members && c.slice !in Slip(w, c, d).holds
  {
    SlipScheduled(w, c, d, keyOf);
    SlipTips(w, c, d, keyOf);
    hide Backed, Check, Act;
  }

  lemma SlipScheduled(w: World, c: Call, d: Call, keyOf: map<string, string>)
    requires Scheduled(w, Gate(c), keyOf) && !Seen(c.reading) && Counted(w, c) && Completes(w, c, d, keyOf)
    ensures var w1 := Act(w, Gate(c)); var w2 := Act(w1, End(w, c));
            Scheduled(w1, End(w, c), keyOf) && Scheduled(w2, Begin(d.slice), keyOf)
                && Scheduled(Slip(w, c, d), Gate(d), keyOf)
    ensures Slip(w, c, d).gate == w.gate && c.slice !in Slip(w, c, d).holds
  {
  }

  lemma SlipTips(w: World, c: Call, d: Call, keyOf: map<string, string>)
    requires Backed(w, keyOf) && Counted(w, c) && Completes(w, c, d, keyOf)
    ensures var o := Check(w.gate, d);
        o.verdict == Allowed && o.joined && Key(d) in o.gate.cohorts && c.slice in o.gate.cohorts[Key(d)].members
  {
    var g, k := w.gate, Key(d);
    assert g.admitting == k;
    var g1 := Entered(g, d);
    assert g1 == g.(cohorts := g1.cohorts, backoff := g1.backoff)
        && g1.cohorts[k] == g.cohorts[k].(priority := d.priority);
    assert FreeStalled(g1, d.now) == g1;
    hide Backed;
  }

  // A gang of two: "a" joins, is re-checked without seeing the reservation, and "b" follows.
  const Seen0 := Found("r1", 2, false)
  const CallA := Call("ns", "r", "a", "n", 10, 0, Seen0, 0, 0)
  const CallB := CallA.(slice := "b")
  const BlindA := CallA.(reading := Unreadable)
  const Keys := map["a" := Key(CallA), "b" := Key(CallA)]
  const Start := World(EmptyGate, map[], map[], 0)
  const HalfFormed :=
      GateState(map[Key(CallA) := Cohort(2, 0, map["a" := Member("n", 10, 0)], false, 0, "r1")], Key(CallA), 0, map[])
  const Joined := World(HalfFormed, map["a" := GANG_HOLD_TTL], map["a" := Reserved(0)], 0)

  lemma FirstJoins()
    ensures Check(EmptyGate, CallA) == Outcome(HalfFormed, Deferred, true)
  {
    var k := Key(CallA);
    var g1 := Entered(EmptyGate, CallA);
    assert g1 == GateState(map[k := Cohort(2, 0, map[], false, 0, "r1")], "", 0, map[]);
    assert OneForming(g1);
    CompeteCases(g1, CallA, 2);
    assert FreeStalled(g1, 0) == g1 && g1.backoff - {k} == map[];
    hide Compete, Claim;
  }

  const Asked := World(EmptyGate, map["a" := RESERVE_TTL], map["a" := Reserved(0)], 0)
  const Waiting := World(HalfFormed, map["a" := RESERVE_TTL], map[], 0)

  lemma JoinSteps()
    ensures Scheduled(Start, Begin("a"), Keys) && Act(Start, Begin("a")) == Asked
    ensures Scheduled(Asked, Gate(CallA), Keys) && Act(Asked, Gate(CallA)) == Waiting
    ensures Scheduled(Waiting, Begin("a"), Keys) && Act(Waiting, Begin("a")) == Joined
  {
    FirstJoins();
    hide Check;
    assert Asked.cycles - {"a"} == map[];
    assert Waiting.holds["a" := GANG_HOLD_TTL] == Joined.holds;
  }

  lemma JoinedBacked()
    ensures Backed(Joined, Keys)
  {
    assert OneForming(HalfFormed);
    hide OneForming;
    assert MemberOk(Joined, Key(CallA), "a", Member("n", 10, 0), Keys);
  }

  lemma JoinedReached()
    ensures var run := [Begin("a")] + [Gate(CallA)] + [Begin("a")];
        ScheduledRun(Start, run, Keys) && ActAll(Start, run) == Joined
    ensures Backed(Joined, Keys)
  {
    JoinSteps();
    JoinedBacked();
    hide Act, Scheduled, Backed;
    RunOn(Start, [], Begin("a"), Keys);
    RunOn(Start, [Begin("a")], Gate(CallA), Keys);
    RunOn(Start, [Begin("a")] + [Gate(CallA)], Begin("a"), Keys);
    assert [] + [Begin("a")] == [Begin("a")];
  }

  lemma RunOn(w: World, run: seq<Move>, m: Move, keyOf: map<string, string>)
    ensures ActAll(w, run + [m]) == Act(ActAll(w, run), m) && ActAll(w, []) == w
    ensures ScheduledRun(w, run + [m], keyOf) <==> ScheduledRun(w, run, keyOf) && Scheduled(ActAll(w, run), m, keyOf)
  {
    assert (run + [m])[..|run|] == run;
  }

  lemma BlindSlips()
    ensures var w1 := Act(Joined, Gate(BlindA)); var w2 := Act(w1, GiveBack("a")); var w3 := Act(w2, Begin("b"));
            && Scheduled(Joined, Gate(BlindA), Keys) && Scheduled(w1, GiveBack("a"), Keys)
            && Scheduled(w2, Begin("b"), Keys) && Scheduled(w3, Gate(CallB), Keys) && Tips(w3, Gate(CallB))
            && "a" in Check(w3.gate, CallB).gate.cohorts[Key(CallB)].members && "a" !in w3.holds
  {
    JoinedBacked();
    assert "a"[0] != "b"[0];
    assert End(Joined, BlindA) == GiveBack("a");
    hide Backed, Tips;
    UnseenReservationTipsUnheld(Joined, BlindA, CallB, Keys);
    SlipScheduled(Joined, BlindA, CallB, Keys);
  }

  /** So there is a run of the empty gate that tips a quorum counting a slice without a hold. */
  lemma UnheldQuorumIsReachable() returns (run: seq<Move>)
    ensures ScheduledRun(Start, run, Keys) && Scheduled(ActAll(Start, run), Gate(CallB), Keys)
    ensures Tips(ActAll(Start, run), Gate(CallB))
    ensures var w := ActAll(Start, run); "a" in Check(w.gate, CallB).gate.cohorts[Key(CallB)].members && "a" !in w.holds
  {
    hide Check, Act, Backed, Tips, Scheduled;
    JoinedReached();
    BlindSlips();
    run := [Begin("a")] + [Gate(CallA)] + [Begin("a")];
    RunOn(Start, run, Gate(BlindA), Keys);
    RunOn(Start, run + [Gate(BlindA)], GiveBack("a"), Keys);
    RunOn(Start, run + [Gate(BlindA)] + [GiveBack("a")], Begin("b"), Keys);
    run := run + [Gate(BlindA)] + [GiveBack("a")] + [Begin("b")];
  }
}
