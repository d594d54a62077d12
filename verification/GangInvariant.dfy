/**
 * What holds of the gang gate in every reachable state: one half-formed gang at most, a free
 * slot only ever goes to the calling slice's own cohort, and every permission to bind rests on
 * a full quorum of the same reservation object gathered within one tenure of the slot.
 */
module GangInvariant {
  import opened GangGates

  /** The slot holder is a tracked, unreleased cohort with members, and no other unreleased cohort has any. */
  ghost predicate OneForming(g: GateState) {
    && "" !in g.cohorts
    && (g.admitting != "" ==>
          g.admitting in g.cohorts && !g.cohorts[g.admitting].released && g.cohorts[g.admitting].members != map[])
    && (forall k :: k in g.cohorts && !g.cohorts[k].released && g.cohorts[k].members != map[] ==> k == g.admitting)
  }

  /** A gang holding capacity short of quorum. */
  predicate Forming(g: GateState, key: string) {
    key in g.cohorts && !g.cohorts[key].released && g.cohorts[key].members != map[]
  }

  lemma ReapKeepsOneForming(g: GateState, t: int)
    requires OneForming(g)
    ensures OneForming(Reap(g, t))
  {
  }

  lemma EnrollKeepsOneForming(g: GateState, key: string, uid: string, size: int, priority: int, now: int)
    requires OneForming(g) && key != ""
    ensures OneForming(Enroll(g, key, uid, size, priority, now))
  {
  }

  lemma FreeStalledKeepsOneForming(g: GateState, now: int)
    requires OneForming(g)
    ensures OneForming(FreeStalled(g, now))
    ensures Stalled(g, now) ==> !GhostHolder(g) && FreeStalled(g, now).admitting == ""
  {
  }

  /** With the slot free, only the caller's own unreleased cohort can contend. */
  lemma OnlyCallerContends(g: GateState, now: int, caller: string)
    requires OneForming(g) && g.admitting == "" && caller in g.cohorts && !g.cohorts[caller].released
    ensures Eligible(g, now, caller) == if BackedOff(g, caller, now) then {} else {caller}
    ensures Claim(g, now, caller)
         == if BackedOff(g, caller, now) then g
            else g.(admitting := caller, admittingSince := now, backoff := g.backoff - {caller})
  {
    var contenders := Eligible(g, now, caller);
    if BackedOff(g, caller, now) {
      assert contenders == {};
      assert g.backoff - {} == g.backoff;
    } else {
      assert contenders == {caller};
      HeadExists(g, contenders);
    }
  }

  /** The cohort state right before the slot may change hands. */
  function Entered(g: GateState, c: Call): GateState
    requires c.reading.Found?
  {
    Enroll(Reap(g, c.reapAt), Key(c), c.reading.uid, c.reading.gangSize, c.priority, c.now)
  }

  /** Calls that reach the competition for the slot. */
  predicate Competes(g: GateState, c: Call) {
    c.reservation != "" && c.reading.Found? && !c.reading.terminal && c.reading.gangSize > 0
    && !Entered(g, c).cohorts[Key(c)].released
  }

  /** In every reachable state a free slot goes to the calling slice's own cohort or, during that
      cohort's backoff, to nobody; and a stalled holder always still has members. */
  lemma SlotGoesToCallerOrNobody(g: GateState, c: Call)
    requires OneForming(g) && Competes(g, c)
    ensures var g1 := Entered(g, c); var g2 := FreeStalled(g1, c.now); var g3 := Claim(g2, c.now, Key(c));
            && (Stalled(g1, c.now) ==> !GhostHolder(g1))
            && (g2.admitting == "" ==> g3.admitting == if BackedOff(g2, Key(c), c.now) then "" else Key(c))
            && (g2.admitting != "" ==> g3 == g2)
  {
    ReapKeepsOneForming(g, c.reapAt);
    EnrollKeepsOneForming(Reap(g, c.reapAt), Key(c), c.reading.uid, c.reading.gangSize, c.priority, c.now);
    var g1 := Entered(g, c);
    FreeStalledKeepsOneForming(g1, c.now);
    var g2 := FreeStalled(g1, c.now);
    if g2.admitting == "" {
      CallerSurvives(g1, c);
      OnlyCallerContends(g2, c.now, Key(c));
    }
  }

  lemma CallerSurvives(g1: GateState, c: Call)
    requires OneForming(g1) && Key(c) in g1.cohorts && !g1.cohorts[Key(c)].released
    ensures Key(c) in FreeStalled(g1, c.now).cohorts && !FreeStalled(g1, c.now).cohorts[Key(c)].released
  {
  }

  /** What a competing call does, in a reachable state: three cases. */
  lemma CompeteCases(g1: GateState, c: Call, size: int)
    requires OneForming(g1) && Key(c) in g1.cohorts && !g1.cohorts[Key(c)].released
    ensures var g2 := FreeStalled(g1, c.now); var k := Key(c);
            && OneForming(g2) && k in g2.cohorts && !g2.cohorts[k].released
            && Compete(g1, c, size)
            == Settle(if g2.admitting == "" && !BackedOff(g2, k, c.now)
                      then g2.(admitting := k, admittingSince := c.now, backoff := g2.backoff - {k})
                          else g2, k, c, size)
  {
    FreeStalledKeepsOneForming(g1, c.now);
    CallerSurvives(g1, c);
    var g2 := FreeStalled(g1, c.now);
    if g2.admitting == "" { OnlyCallerContends(g2, c.now, Key(c)); }
  }

  lemma SettleKeepsOneForming(g: GateState, c: Call, size: int)
    requires OneForming(g) && Key(c) in g.cohorts && !g.cohorts[Key(c)].released
    ensures OneForming(Settle(g, Key(c), c, size).gate)
    ensures g.admitting == "" ==>
        OneForming(Settle(g.(admitting := Key(c), admittingSince := c.now, backoff := g.backoff - {Key(c)}), Key(c), c,
        size).gate)
  {
    var none: map<string, Member> := map[];
    assert none - {c.slice} == none;
  }

  /** OneForming is inductive over every kind of gate check. */
  lemma CheckKeepsOneForming(g: GateState, c: Call)
    requires OneForming(g)
    ensures OneForming(Check(g, c).gate)
  {
    if c.reservation != "" && c.reading.Found? && !c.reading.terminal && c.reading.gangSize > 0 {
      ReapKeepsOneForming(g, c.reapAt);
      EnrollKeepsOneForming(Reap(g, c.reapAt), Key(c), c.reading.uid, c.reading.gangSize, c.priority, c.now);
      var g1 := Entered(g, c);
      if !g1.cohorts[Key(c)].released {
        CompeteCases(g1, c, c.reading.gangSize);
        SettleKeepsOneForming(FreeStalled(g1, c.now), c, c.reading.gangSize);
      }
    }
  }

  // ----- Histories -----

  /** One past call, its result, and when the slot's tenure at that call began. */
  datatype Event = Event(call: Call, verdict: Verdict, joined: bool, since: int)

  datatype Trace = Trace(gate: GateState, events: seq<Event>)

  ghost function Extend(t: Trace, c: Call): Trace {
    var o := Check(t.gate, c);
    Trace(o.gate, t.events + [Event(c, o.verdict, o.joined, o.gate.admittingSince)])
  }

  ghost function TraceOf(calls: seq<Call>): Trace
    decreases |calls|
  {
    if calls == [] then Trace(EmptyGate, []) else Extend(TraceOf(calls[..|calls| - 1]), calls[|calls| - 1])
  }

  /** Clock reads never go back, within a call or from call to call. */
  predicate Monotone(calls: seq<Call>) {
    (forall i :: 0 <= i < |calls| ==> calls[i].reapAt <= calls[i].now)
    && (forall i, j :: 0 <= i < j < |calls| ==> calls[i].now <= calls[j].reapAt)
  }

  /** Event `i` registered a slice of reservation object `uid` under `key`, in the tenure that began at
      `since`, no later than `until` and at most the admission timeout after the tenure began. */
  predicate JoinedIn(e: Event, key: string, uid: string, since: int, until: int) {
    e.joined && Key(e.call) == key && e.call.reading.Found? && e.call.reading.uid == uid
    && e.since == since <= e.call.now <= until <= since + ADMISSION_TIMEOUT
  }

  /** Slices registered together, up to and including event `j`. */
  function Together(events: seq<Event>, j: int, key: string, uid: string): set<string>
    requires 0 <= j < |events|
  {
    set i | 0 <= i <= j && JoinedIn(events[i], key, uid, events[j].since, events[j].call.now) :: events[i].call.slice
  }

  /** Event `j` tipped the cohort of `key`: at least the gang size it read had joined in one tenure. */
  ghost predicate Tipped(events: seq<Event>, j: int, key: string, uid: string) {
    && 0 <= j < |events| && events[j].verdict == Allowed && events[j].joined
    && Key(events[j].call) == key && events[j].call.reading.Found? && events[j].call.reading.uid == uid
    && |Together(events, j, key, uid)| >= events[j].call.reading.gangSize
  }

  /** Member `u`, recorded at `heldAt` in the tenure begun at `since`, rests on an event. */
  ghost predicate Witnessed(events: seq<Event>, key: string, uid: string, u: string, heldAt: int, since: int) {
    exists i :: 0 <= i < |events| && events[i].joined && Key(events[i].call) == key && events[i].call.reading.Found?
      && events[i].call.reading.uid == uid && events[i].call.slice == u && events[i].call.now == heldAt
          && events[i].since == since
  }

  ghost predicate MembersWitnessed(g: GateState, events: seq<Event>, k: string)
    requires k in g.cohorts
  {
    forall u :: u in g.cohorts[k].members ==>
      Witnessed(events, k, g.cohorts[k].rsvUID, u, g.cohorts[k].members[u].heldAt, g.admittingSince)
      && g.admittingSince <= g.cohorts[k].members[u].heldAt
  }

  ghost predicate EverTipped(events: seq<Event>, key: string, uid: string) {
    exists j :: Tipped(events, j, key, uid)
  }

  /** Every cohort's state is explained by the history. */
  ghost predicate Explained(g: GateState, events: seq<Event>) {
    && OneForming(g)
    && (forall k :: k in g.cohorts && !g.cohorts[k].released ==> MembersWitnessed(g, events, k))
    && (forall k :: k in g.cohorts && g.cohorts[k].released ==> EverTipped(events, k, g.cohorts[k].rsvUID))
  }

  lemma HistoryGrows(events: seq<Event>, e: Event)
    ensures forall key, uid, u, h, s ::
        Witnessed(events, key, uid, u, h, s) ==> Witnessed(events + [e], key, uid, u, h, s)
    ensures forall key, uid :: EverTipped(events, key, uid) ==> EverTipped(events + [e], key, uid)
  {
    var events' := events + [e];
    forall key, uid, u, h, s | Witnessed(events, key, uid, u, h, s) ensures Witnessed(events', key, uid, u, h, s) {
      var i :| 0 <= i < |events| && events[i].joined && Key(events[i].call) == key && events[i].call.reading.Found?
        && events[i].call.reading.uid == uid && events[i].call.slice == u && events[i].call.now == h
            && events[i].since == s;
      assert events'[i] == events[i];
    }
    forall key, uid | EverTipped(events, key, uid) ensures EverTipped(events', key, uid) {
      var j :| Tipped(events, j, key, uid);
      TipStays(events, events', j, key, uid);
    }
  }

  /** What a tip rests on lies in its past, so no later event undoes it. */
  lemma TipStays(events: seq<Event>, events': seq<Event>, j: int, key: string, uid: string)
    requires events <= events' && Tipped(events, j, key, uid)
    ensures Tipped(events', j, key, uid)
  {
    assert events'[j] == events[j];
    var a, b := Together(events, j, key, uid), Together(events', j, key, uid);
    forall u | u in a ensures u in b {
      var i :| 0 <= i <= j && JoinedIn(events[i], key, uid, events[j].since, events[j].call.now)
          && events[i].call.slice == u;
      assert events'[i] == events[i];
    }
    SubsetSize(a, b);
  }

  /** A state whose cohorts come, members and release alike, from an explained one, is explained. */
  ghost predicate Inherits(g: GateState, g': GateState) {
    forall k :: k in g'.cohorts ==>
      if g'.cohorts[k].released then
          k in g.cohorts && g.cohorts[k].released && g.cohorts[k].rsvUID == g'.cohorts[k].rsvUID
      else g'.cohorts[k].members == map[] ||
           (k in g.cohorts && !g.cohorts[k].released && g'.cohorts[k].members == g.cohorts[k].members
            && g.cohorts[k].rsvUID == g'.cohorts[k].rsvUID && g'.admittingSince == g.admittingSince)
  }

  lemma InheritedExplained(g: GateState, g': GateState, events: seq<Event>)
    requires Explained(g, events) && OneForming(g') && Inherits(g, g')
    ensures Explained(g', events)
  {
    forall k | k in g'.cohorts && !g'.cohorts[k].released ensures MembersWitnessed(g', events, k) {
      if g'.cohorts[k].members != map[] { assert MembersWitnessed(g, events, k); }
    }
    forall k | k in g'.cohorts && g'.cohorts[k].released ensures EverTipped(events, k, g'.cohorts[k].rsvUID) {
    }
  }

  lemma ForgetInherits(g: GateState, key: string)
    ensures Inherits(g, Forget(g, key))
  {
  }

  lemma ReapInherits(g: GateState, t: int)
    ensures Inherits(g, Reap(g, t))
  {
  }

  lemma EnrollInherits(g: GateState, key: string, uid: string, size: int, priority: int, now: int)
    ensures Inherits(g, Enroll(g, key, uid, size, priority, now))
  {
  }

  lemma FreeStalledInherits(g: GateState, now: int)
    requires OneForming(g)
    ensures Inherits(g, FreeStalled(g, now))
  {
  }

  /** The history after a registering call explains the cohort it joined. */
  lemma JoinExplained(g: GateState, c: Call, size: int, events: seq<Event>)
    requires Explained(g, events) && Key(c) in g.cohorts && !g.cohorts[Key(c)].released
    requires c.reading == Found(g.cohorts[Key(c)].rsvUID, size, false)
    requires (g.admitting == "" && g.cohorts[Key(c)].members == map[]) || (g.admitting == Key(c) && !Stalled(g, c.now))
    requires g.admitting != "" ==> g.admittingSince <= c.now
    requires forall i :: 0 <= i < |events| ==> events[i].call.now <= c.now
    ensures var held := if g.admitting == "" then
        g.(admitting := Key(c), admittingSince := c.now, backoff := g.backoff - {Key(c)}) else g;
            var o := Settle(held, Key(c), c, size);
            Explained(o.gate, events + [Event(c, o.verdict, o.joined, o.gate.admittingSince)])
  {
    var k := Key(c);
    var held := if g.admitting == "" then g.(admitting := k, admittingSince := c.now, backoff := g.backoff - {k})
        else g;
    var o := Settle(held, k, c, size);
    var e := Event(c, o.verdict, o.joined, o.gate.admittingSince);
    var members := held.cohorts[k].members[c.slice := Member(c.node, c.bytes, c.now)];
    SettleKeepsOneForming(g, c, size);
    JoinedWitnessed(g, held, c, events, e);
    GrownExplained(g, events, e);
    if o.verdict == Allowed { QuorumTips(events + [e], k, g.cohorts[k].rsvUID, members, held.admittingSince); }
    hide Witnessed, EverTipped;
    SettledExplained(g, held, o.gate, k, members, events + [e]);
  }

  lemma JoinedWitnessed(g: GateState, held: GateState, c: Call, events: seq<Event>, e: Event)
    requires var k := Key(c); k in g.cohorts && !g.cohorts[k].released && MembersWitnessed(g, events, k)
    requires var k := Key(c); held.cohorts == g.cohorts && c.reading.Found? && c.reading.uid == g.cohorts[k].rsvUID
    requires e.call == c && e.joined && e.since == held.admittingSince <= c.now
    requires held.admittingSince == g.admittingSince || g.cohorts[Key(c)].members == map[]
    ensures var k := Key(c); var members := g.cohorts[k].members[c.slice := Member(c.node, c.bytes, c.now)];
            forall u :: u in members ==>
              Witnessed(events + [e], k, g.cohorts[k].rsvUID, u, members[u].heldAt, held.admittingSince)
              && held.admittingSince <= members[u].heldAt
  {
    HistoryGrows(events, e);
    assert (events + [e])[|events|] == e;
  }

  lemma SettledExplained(g: GateState, held: GateState, g': GateState, k: string, members: map<string, Member>,
      events: seq<Event>)
    requires Explained(g, events) && OneForming(g') && k in g.cohorts && !g.cohorts[k].released
    requires held.cohorts == g.cohorts && g'.admittingSince == held.admittingSince
    requires g.admitting == "" || g.admitting == k
    requires exists r :: g'.cohorts == g.cohorts[k := g.cohorts[k].(members := members, released := r)]
    requires forall u :: u in members ==>
              Witnessed(events, k, g.cohorts[k].rsvUID, u, members[u].heldAt, held.admittingSince)
                  && held.admittingSince <= members[u].heldAt
    requires g'.cohorts[k].released ==> EverTipped(events, k, g.cohorts[k].rsvUID)
    ensures Explained(g', events)
  {
    forall m | m in g'.cohorts && !g'.cohorts[m].released ensures MembersWitnessed(g', events, m) {
      if m != k { assert g.cohorts[m].members == map[]; }
    }
  }

  /** When the last event tips the cohort, every member's joining event lies in its tenure. */
  lemma QuorumTips(events: seq<Event>, k: string, uid: string, members: map<string, Member>, since: int)
    requires |events| > 0
    requires var e := events[|events| - 1];
             e.verdict == Allowed && e.joined && Key(e.call) == k && e.call.reading.Found? && e.call.reading.uid == uid
             && e.since == since && e.call.now <= since + ADMISSION_TIMEOUT && |members| >= e.call.reading.gangSize
             && forall i :: 0 <= i < |events| ==> events[i].call.now <= e.call.now
    requires forall u ::
        u in members ==> Witnessed(events, k, uid, u, members[u].heldAt, since) && since <= members[u].heldAt
    ensures EverTipped(events, k, uid)
  {
    var j := |events| - 1;
    var together := Together(events, j, k, uid);
    forall u | u in members ensures u in together {
      var i :| 0 <= i < |events| && events[i].joined && Key(events[i].call) == k && events[i].call.reading.Found?
        && events[i].call.reading.uid == uid && events[i].call.slice == u && events[i].call.now == members[u].heldAt
            && events[i].since == since;
      assert JoinedIn(events[i], k, uid, since, events[j].call.now);
    }
    SubsetSize(members.Keys, together);
    assert |members.Keys| == |members|;
    assert Tipped(events, j, k, uid);
  }

  lemma {:induction false} SubsetSize(a: set<string>, b: set<string>)
    requires a <= b
    ensures |a| <= |b|
    decreases a
  {
    if a != {} {
      var x :| x in a;
      SubsetSize(a - {x}, b - {x});
    }
  }

  /** The slot was not granted in the future. */
  predicate Timely(g: GateState, now: int) {
    g.admitting != "" ==> g.admittingSince <= now
  }

  lemma ExtendExplained(t: Trace, c: Call)
    requires Explained(t.gate, t.events) && Timely(t.gate, c.now)
    requires forall i :: 0 <= i < |t.events| ==> t.events[i].call.now <= c.now
    ensures Explained(Extend(t, c).gate, Extend(t, c).events) && Timely(Extend(t, c).gate, c.now)
    ensures var e := Extend(t, c).events[|t.events|];
            e.verdict == Allowed ==> c.reading.Found? && EverTipped(Extend(t, c).events, Key(c), c.reading.uid)
  {
    var g, o := t.gate, Check(t.gate, c);
    var e := Event(c, o.verdict, o.joined, o.gate.admittingSince);
    CheckKeepsOneForming(g, c);
    if c.reservation == "" || !c.reading.Found? || (!c.reading.terminal && c.reading.gangSize <= 0) {
      GrownExplained(g, t.events, e);
    } else {
      if c.reading.terminal {
        ForgetInherits(g, Key(c));
        InheritedExplained(g, o.gate, t.events);
        GrownExplained(o.gate, t.events, e);
      } else {
        EnteredExplained(t, c);
        var g1 := Entered(g, c);
        if g1.cohorts[Key(c)].released {
          GrownExplained(g1, t.events, e);
        } else {
          CompeteExplained(g1, t.events, c);
        }
      }
    }
  }

  lemma GrownExplained(g: GateState, events: seq<Event>, e: Event)
    requires Explained(g, events)
    ensures Explained(g, events + [e])
  {
    HistoryGrows(events, e);
    hide Witnessed, EverTipped;
    forall k | k in g.cohorts && !g.cohorts[k].released ensures MembersWitnessed(g, events + [e], k) {
      assert MembersWitnessed(g, events, k);
    }
  }

  lemma EnteredExplained(t: Trace, c: Call)
    requires Explained(t.gate, t.events) && Timely(t.gate, c.now) && c.reading.Found?
    ensures Explained(Entered(t.gate, c), t.events) && Timely(Entered(t.gate, c), c.now)
    ensures Entered(t.gate, c).cohorts[Key(c)].rsvUID == c.reading.uid
  {
    ReapKeepsOneForming(t.gate, c.reapAt);
    EnrollKeepsOneForming(Reap(t.gate, c.reapAt), Key(c), c.reading.uid, c.reading.gangSize, c.priority, c.now);
    ReapInherits(t.gate, c.reapAt);
    InheritedExplained(t.gate, Reap(t.gate, c.reapAt), t.events);
    EnrollInherits(Reap(t.gate, c.reapAt), Key(c), c.reading.uid, c.reading.gangSize, c.priority, c.now);
    InheritedExplained(Reap(t.gate, c.reapAt), Entered(t.gate, c), t.events);
    hide Explained, Inherits, OneForming;
  }

  lemma CompeteExplained(g1: GateState, events: seq<Event>, c: Call)
    requires Explained(g1, events) && Timely(g1, c.now) && c.reading.Found? && !c.reading.terminal
    requires Key(c) in g1.cohorts && !g1.cohorts[Key(c)].released && g1.cohorts[Key(c)].rsvUID == c.reading.uid
    requires forall i :: 0 <= i < |events| ==> events[i].call.now <= c.now
    ensures var o := Compete(g1, c, c.reading.gangSize);
            var events' := events + [Event(c, o.verdict, o.joined, o.gate.admittingSince)];
            Explained(o.gate, events') && Timely(o.gate, c.now)
            && (o.verdict == Allowed ==> EverTipped(events', Key(c), c.reading.uid))
  {
    var k, size := Key(c), c.reading.gangSize;
    CompeteCases(g1, c, size);
    var g2 := FreeStalled(g1, c.now);
    FreeStalledInherits(g1, c.now);
    InheritedExplained(g1, g2, events);
    if g2.admitting == k || (g2.admitting == "" && !BackedOff(g2, k, c.now)) {
      FreedRsv(g1, c.now, k);
      JoinExplained(g2, c, size, events);
      var o := Compete(g1, c, size);
      JoinOutcome(g2, c, size, events + [Event(c, o.verdict, o.joined, o.gate.admittingSince)]);
      hide Explained, EverTipped, OneForming, Settle, Compete, FreeStalled;
    } else {
      WaitExplained(g2, c, size, events);
      hide Explained, EverTipped, OneForming, Compete, FreeStalled;
    }
  }

  lemma JoinOutcome(g: GateState, c: Call, size: int, events: seq<Event>)
    requires Key(c) in g.cohorts && c.reading.Found? && g.cohorts[Key(c)].rsvUID == c.reading.uid
    requires g.admitting == "" || (g.admitting == Key(c) && g.admittingSince <= c.now)
    ensures var held := if g.admitting == "" then
        g.(admitting := Key(c), admittingSince := c.now, backoff := g.backoff - {Key(c)}) else g;
            var o := Settle(held, Key(c), c, size);
            && Timely(o.gate, c.now)
            && (Explained(o.gate, events) && o.verdict == Allowed ==> EverTipped(events, Key(c), c.reading.uid))
  {
    hide MembersWitnessed, EverTipped, OneForming;
    var held := if g.admitting == "" then
        g.(admitting := Key(c), admittingSince := c.now, backoff := g.backoff - {Key(c)}) else g;
    var o := Settle(held, Key(c), c, size);
    assert Key(c) in o.gate.cohorts && o.gate.cohorts[Key(c)].rsvUID == c.reading.uid
           && (o.verdict == Allowed ==> o.gate.cohorts[Key(c)].released);
  }

  lemma WaitExplained(g: GateState, c: Call, size: int, events: seq<Event>)
    requires Explained(g, events) && Key(c) in g.cohorts && !g.cohorts[Key(c)].released && g.admitting != Key(c)
    ensures var o := Settle(g, Key(c), c, size);
            Explained(o.gate, events + [Event(c, o.verdict, o.joined, o.gate.admittingSince)])
            && o.verdict == Wait && o.gate.admitting == g.admitting && o.gate.admittingSince == g.admittingSince
  {
    var o := Settle(g, Key(c), c, size);
    var none: map<string, Member> := map[];
    assert none - {c.slice} == none;
    assert g.cohorts[Key(c)].members == none;
    assert o.gate == g;
    GrownExplained(g, events, Event(c, o.verdict, o.joined, o.gate.admittingSince));
    hide Explained;
  }

  lemma FreedRsv(g1: GateState, now: int, k: string)
    requires OneForming(g1) && k in g1.cohorts && !g1.cohorts[k].released
    ensures var g2 := FreeStalled(g1, now);
            k in g2.cohorts && g2.cohorts[k].rsvUID == g1.cohorts[k].rsvUID && !Stalled(g2, now)
            && (g2.admitting == "" ==> g2.cohorts[k].members == map[])
  {
  }

  lemma {:induction false} TraceExplained(calls: seq<Call>)
    requires Monotone(calls)
    ensures var t := TraceOf(calls);
            && Explained(t.gate, t.events) && |t.events| == |calls|
            && (forall i :: 0 <= i < |calls| ==> t.events[i].call == calls[i])
            && (calls != [] ==> Timely(t.gate, calls[|calls| - 1].now))
            && (calls == [] ==> t.gate.admitting == "")
    decreases |calls|
  {
    if calls != [] {
      var rest, c := calls[..|calls| - 1], calls[|calls| - 1];
      TraceExplained(rest);
      hide Explained, Check;
      ExtendExplained(TraceOf(rest), c);
    }
  }

  /** A tip of the same reservation object at or before event `i`. */
  ghost predicate QuorumBy(events: seq<Event>, i: int, key: string, uid: string) {
    exists j :: 0 <= j <= i && Tipped(events, j, key, uid)
  }

  lemma QuorumStays(events: seq<Event>, events': seq<Event>, i: int, key: string, uid: string)
    requires events <= events' && QuorumBy(events, i, key, uid)
    ensures QuorumBy(events', i, key, uid)
  {
    var j :| 0 <= j <= i && Tipped(events, j, key, uid);
    TipStays(events, events', j, key, uid);
    hide Tipped;
  }

  lemma LastAllowed(t: Trace, c: Call)
    requires Explained(t.gate, t.events) && Timely(t.gate, c.now)
    requires forall i :: 0 <= i < |t.events| ==> t.events[i].call.now <= c.now
    ensures var t' := Extend(t, c);
            |t'.events| == |t.events| + 1 && t.events <= t'.events && t'.events[|t.events|].call == c
            && (t'.events[|t.events|].verdict == Allowed ==>
                c.reading.Found? && QuorumBy(t'.events, |t.events|, Key(c), c.reading.uid))
  {
    ExtendExplained(t, c);
    hide Check, Explained, Together;
    if Extend(t, c).events[|t.events|].verdict == Allowed {
      var j :| Tipped(Extend(t, c).events, j, Key(c), c.reading.uid);
    }
  }

  lemma LastCallAllowed(calls: seq<Call>)
    requires Monotone(calls) && calls != []
    ensures var n := |calls| - 1; var events, events' := TraceOf(calls[..n]).events, TraceOf(calls).events;
            && |events| == n && |events'| == n + 1 && events <= events'
            && (events'[n].verdict == Allowed ==>
                calls[n].reading.Found? && QuorumBy(events', n, Key(calls[n]), calls[n].reading.uid))
  {
    var rest, c := calls[..|calls| - 1], calls[|calls| - 1];
    TraceExplained(rest);
    assert TraceOf(calls) == Extend(TraceOf(rest), c);
    hide Explained, QuorumBy, TraceOf, Extend;
    assert forall i :: 0 <= i < |rest| ==> TraceOf(rest).events[i].call == calls[i];
    LastAllowed(TraceOf(rest), c);
  }

  /** Whatever runs before it, an `Allowed` for a reservation object is preceded by its own quorum: at or
      before that call, at least the gang size of distinct slices were registered under the same
      reservation UID in one tenure of the slot. A re-created gang of the same name has a new UID,
      so it never inherits a release. */
  lemma {:induction false} AllowedMeansQuorum(calls: seq<Call>, i: nat)
    requires Monotone(calls) && i < |calls| && |TraceOf(calls).events| == |calls|
    requires TraceOf(calls).events[i].verdict == Allowed
    ensures calls[i].reading.Found? && QuorumBy(TraceOf(calls).events, i, Key(calls[i]), calls[i].reading.uid)
    decreases |calls|
  {
    hide QuorumBy, TraceOf;
    var rest := calls[..|calls| - 1];
    LastCallAllowed(calls);
    if i < |rest| {
      AllowedMeansQuorum(rest, i);
      QuorumStays(TraceOf(rest).events, TraceOf(calls).events, i, Key(calls[i]), calls[i].reading.uid);
    }
  }

  /** Every reachable gate has at most one half-formed gang. */
  lemma ReachableOneForming(calls: seq<Call>)
    requires Monotone(calls)
    ensures OneForming(TraceOf(calls).gate)
    ensures forall j, k :: Forming(TraceOf(calls).gate, j) && Forming(TraceOf(calls).gate, k) ==> j == k
  {
    TraceExplained(calls);
  }
}
