/**
 * Whose turn it is at the gate: what each check answers, told from the state before it, and how a gang that stalled is
 * kept away from the slot while others take it.
 */
module GangTurns {
  import opened GangGates
  import opened GangInvariant

  // ----- Keys and order -----

  predicate NoSlash(s: string) { forall i :: 0 <= i < |s| ==> s[i] != '/' }

  /** Gangs of different namespaces or names never share a cohort. */
  lemma KeyInjective(c: Call, d: Call)
    requires NoSlash(c.namespace) && NoSlash(d.namespace) && Key(c) == Key(d)
    ensures c.namespace == d.namespace && c.reservation == d.reservation
  {
    var n, m := |c.namespace|, |d.namespace|;
    assert forall i :: 0 <= i < n ==> Key(c)[i] == c.namespace[i];
    assert forall i :: 0 <= i < m ==> Key(d)[i] == d.namespace[i];
    assert Key(c)[n] == '/' && Key(d)[m] == '/';
    assert c.namespace == Key(c)[..n] && d.namespace == Key(d)[..n];
    assert c.reservation == Key(c)[n + 1..] && d.reservation == Key(d)[n + 1..];
  }

  /** Names are ordered by their first difference, a prefix before the longer name. */
  lemma {:induction false} FirstDifference(a: string, b: string, i: nat)
    requires i <= |a| && i <= |b| && a[..i] == b[..i] && (i == |a| || i == |b| || a[i] != b[i])
    ensures StringLess(a, b) <==> i < |b| && (i == |a| || a[i] < b[i])
    decreases i
  {
    if i > 0 {
      assert a[0] == a[..i][0] == b[..i][0] == b[0];
      assert a[1..][..i - 1] == a[..i][1..] == b[..i][1..] == b[1..][..i - 1];
      FirstDifference(a[1..], b[1..], i - 1);
    }
  }

  /** The head of a contending set has the highest priority in it, is the oldest of that priority, and the first by name
      of those equally old. */
  lemma HeadIsMostUrgent(g: GateState, contenders: set<string>, k: string)
    requires contenders <= g.cohorts.Keys && k in contenders
    ensures var head := HeadOf(g, contenders);
            head in contenders &&
            var h, c := g.cohorts[head], g.cohorts[k];
            && h.priority >= c.priority
            && (h.priority == c.priority ==> h.createdAt <= c.createdAt)
            && (h.priority == c.priority && h.createdAt == c.createdAt ==> head == k || StringLess(head, k))
  {
    HeadExists(g, contenders);
    assert IsHead(g, contenders, HeadOf(g, contenders));
  }

  // ----- One check -----

  /** The reservation was read, and names a gang that is neither over nor empty. */
  predicate LiveGang(c: Call) {
    c.reservation != "" && c.reading.Found? && !c.reading.terminal && c.reading.gangSize > 0
  }

  /** The cohort of `k` is still there when this check decides: it is not an unreleased one older than 90 seconds, nor,
      for the caller's own key, one of another reservation object. */
  predicate Survives(g: GateState, c: Call, k: string)
    requires c.reading.Found?
  {
    && k in g.cohorts && (g.cohorts[k].released || c.reapAt - g.cohorts[k].createdAt <= 90 * SECOND)
    && (k == Key(c) ==> g.cohorts[k].rsvUID == c.reading.uid)
  }

  predicate AlreadyReleased(g: GateState, c: Call)
    requires c.reading.Found?
  {
    Survives(g, c, Key(c)) && g.cohorts[Key(c)].released
  }

  /** The gang that holds the slot when the caller comes to compete: one that survives and has not had it for more than
      20 seconds. */
  function Holder(g: GateState, c: Call): string
    requires c.reading.Found?
  {
    if g.admitting != "" && Survives(g, c, g.admitting) && c.now - g.admittingSince <= 20 * SECOND then g.admitting
        else ""
  }

  /** The caller's gang must stay away: its backoff is not over, or it has just lost the slot for stalling. */
  predicate Away(g: GateState, c: Call)
    requires c.reading.Found?
  {
    var k := Key(c);
    || (k in g.backoff && c.now < g.backoff[k] && (k in g.cohorts ==> Survives(g, c, k)))
    || (g.admitting == k && Survives(g, c, k) && c.now - g.admittingSince > 20 * SECOND)
  }

  /** Members counted with the caller, if it may join. */
  function Counting(g: GateState, c: Call): set<string>
    requires c.reading.Found?
  {
    (if Holder(g, c) == Key(c) && Key(c) in g.cohorts then g.cohorts[Key(c)].members.Keys else {}) + {c.slice}
  }

  predicate MayJoin(g: GateState, c: Call)
    requires c.reading.Found?
  {
    Holder(g, c) == Key(c) || (Holder(g, c) == "" && !Away(g, c))
  }

  /** A check of a slice whose reservation cannot be read, is over, or names no gang. */
  lemma ClosedVerdict(g: GateState, c: Call)
    requires !LiveGang(c)
    ensures var o := Check(g, c);
            && o.verdict == (if c.reservation == "" then NotApplicable
                             else if !c.reading.Found? then Retry
                             else if c.reading.terminal then Rejected else NotApplicable)
            && (o.verdict != Rejected ==> o.gate == g) && !o.joined
            && (o.verdict == Rejected ==>
                  && Key(c) !in o.gate.cohorts && Key(c) !in o.gate.backoff && o.gate.admitting != Key(c)
                  && (forall k ::
                      k != Key(c) && k in g.cohorts ==> k in o.gate.cohorts && o.gate.cohorts[k] == g.cohorts[k])
                  && (g.admitting != Key(c) ==> o.gate.admitting == g.admitting))
  {
    KeyNotEmpty(c);
  }

  lemma KeyNotEmpty(c: Call)
    ensures Key(c) != ""
  {
  }

  /** What the state is when the caller's cohort has been found or made. */
  lemma EnteredTells(g: GateState, c: Call)
    requires OneForming(g) && c.reading.Found?
    ensures var g1, k := Entered(g, c), Key(c);
            && OneForming(g1) && k in g1.cohorts && (g1.cohorts[k].released <==> AlreadyReleased(g, c))
            && g1.admittingSince == g.admittingSince
            && g1.cohorts[k].priority == c.priority && g1.cohorts[k].rsvUID == c.reading.uid
            && (!Survives(g, c, k) ==>
                g1.cohorts[k] == Cohort(c.reading.gangSize, c.priority, map[], false, c.now, c.reading.uid))
            && (Survives(g, c, k) ==> g1.cohorts[k] == g.cohorts[k].(priority := c.priority))
            && (g1.admitting == if g.admitting != "" && Survives(g, c, g.admitting) then g.admitting else "")
            && (forall j :: j != k ==> (j in g1.cohorts <==> Survives(g, c, j)))
            && (forall j :: j != k && j in g1.cohorts ==> g1.cohorts[j] == g.cohorts[j])
            && (k in g1.backoff <==> k in g.backoff && (k in g.cohorts ==> Survives(g, c, k)))
            && (k in g1.backoff ==> g1.backoff[k] == g.backoff[k])
            && (forall j :: j != k ==> (j in g1.backoff <==> j in g.backoff && (j in g.cohorts ==> Survives(g, c, j))))
            && (forall j :: j != k && j in g1.backoff ==> g1.backoff[j] == g.backoff[j])
  {
    ReapKeepsOneForming(g, c.reapAt);
    EnrollKeepsOneForming(Reap(g, c.reapAt), Key(c), c.reading.uid, c.reading.gangSize, c.priority, c.now);
  }

  /** What every check of a live gang answers, and who holds the slot after it. */
  lemma VerdictExactly(g: GateState, c: Call)
    requires OneForming(g) && LiveGang(c)
    ensures var o, k := Check(g, c), Key(c);
            if AlreadyReleased(g, c) then o.verdict == Allowed && !o.joined
            else if !MayJoin(g, c) then o.verdict == Wait && !o.joined && o.gate.admitting == Holder(g, c)
            else if |Counting(g, c)| >= c.reading.gangSize then
              o.verdict == Allowed && o.joined && o.gate.admitting == "" && k in o.gate.cohorts
                  && o.gate.cohorts[k].released
            else
              && o.verdict == Deferred && o.joined && o.gate.admitting == k && k in o.gate.cohorts
              && !o.gate.cohorts[k].released && o.gate.cohorts[k].members.Keys == Counting(g, c)
              && o.gate.cohorts[k].members[c.slice] == Member(c.node, c.bytes, c.now)
              && o.gate.admittingSince == if Holder(g, c) == k then g.admittingSince else c.now
  {
    EnteredTells(g, c);
    var g1 := Entered(g, c);
    hide Entered, Enroll, Reap, Forget;
    CheckOpens(g, c);
    if !AlreadyReleased(g, c) {
      FreedTells(g1, c.now, Key(c));
      CompeteCases(g1, c, c.reading.gangSize);
      hide Check, Compete, Claim, FreeStalled, OneForming;
      SettleTells(g, g1, FreeStalled(g1, c.now), c);
    }
  }

  lemma CheckOpens(g: GateState, c: Call)
    requires LiveGang(c) && Key(c) in Entered(g, c).cohorts
    ensures Check(g, c) == if Entered(g, c).cohorts[Key(c)].released then Outcome(Entered(g, c), Allowed, false)
                           else Compete(Entered(g, c), c, c.reading.gangSize)
  {
    hide Enroll, Reap, Compete;
  }

  /** Freeing a stalled holder, told for a key of interest. */
  lemma FreedTells(g1: GateState, now: int, k: string)
    requires OneForming(g1) && k in g1.cohorts && !g1.cohorts[k].released
    ensures var g2 := FreeStalled(g1, now); var stalled := g1.admitting != "" && now - g1.admittingSince > 20 * SECOND;
            && k in g2.cohorts && g2.admittingSince == g1.admittingSince
            && g2.admitting == (if stalled then "" else g1.admitting)
            && (!stalled ==> g2 == g1)
            && (stalled ==> g1.admitting in g2.backoff && g2.backoff[g1.admitting] == now + 15 * SECOND)
            && (stalled ==> g1.admitting in g2.cohorts && g2.cohorts[g1.admitting].members == map[]
                            && g2.cohorts[g1.admitting].createdAt == now && !g2.cohorts[g1.admitting].released
                            && g2.cohorts[g1.admitting].rsvUID == g1.cohorts[g1.admitting].rsvUID)
            && (forall j :: j != g1.admitting ==>
                  && (j in g2.cohorts <==> j in g1.cohorts) && (j in g1.cohorts ==> g2.cohorts[j] == g1.cohorts[j])
                  && (j in g2.backoff <==> j in g1.backoff) && (j in g1.backoff ==> g2.backoff[j] == g1.backoff[j]))
  {
  }

  /** The slot, the backoff and the members as the caller finds them when it competes. */
  lemma HolderTells(g: GateState, g1: GateState, c: Call)
    requires OneForming(g) && LiveGang(c) && g1 == Entered(g, c) && !AlreadyReleased(g, c)
    ensures var g2, k := FreeStalled(g1, c.now), Key(c);
            && k in g2.cohorts && !g2.cohorts[k].released
            && g2.admitting == Holder(g, c) && g2.admittingSince == g.admittingSince
            && (g2.admitting == "" ==> (BackedOff(g2, k, c.now) <==> Away(g, c)))
            && g2.cohorts[k].members.Keys + {c.slice} == Counting(g, c)
  {
    HolderCounts(g, g1, c);
    var k := Key(c);
    EnteredTells(g, c);
    hide Entered;
    FreedTells(g1, c.now, k);
    hide FreeStalled, OneForming, Counting;
  }

  lemma HolderCounts(g: GateState, g1: GateState, c: Call)
    requires OneForming(g) && LiveGang(c) && g1 == Entered(g, c) && !AlreadyReleased(g, c)
    ensures var g2, k := FreeStalled(g1, c.now), Key(c);
            k in g2.cohorts && g2.cohorts[k].members.Keys + {c.slice} == Counting(g, c)
  {
    EnteredTells(g, c);
    hide Entered;
    FreedTells(g1, c.now, Key(c));
    FreeStalledKeepsOneForming(g1, c.now);
    hide FreeStalled, Away, BackedOff;
  }

  lemma SettleTells(g: GateState, g1: GateState, g2: GateState, c: Call)
    requires OneForming(g) && LiveGang(c) && g1 == Entered(g, c) && g2 == FreeStalled(g1, c.now)
    requires !AlreadyReleased(g, c)
    ensures var k := Key(c);
            var g3 := if g2.admitting == "" && !BackedOff(g2, k, c.now)
                      then g2.(admitting := k, admittingSince := c.now, backoff := g2.backoff - {k}) else g2;
            k in g3.cohorts &&
            var o := Settle(g3, k, c, c.reading.gangSize);
            if !MayJoin(g, c) then o.verdict == Wait && !o.joined && o.gate.admitting == Holder(g, c)
            else if |Counting(g, c)| >= c.reading.gangSize then
              o.verdict == Allowed && o.joined && o.gate.admitting == "" && k in o.gate.cohorts
                  && o.gate.cohorts[k].released
            else
              && o.verdict == Deferred && o.joined && o.gate.admitting == k && k in o.gate.cohorts
              && !o.gate.cohorts[k].released && o.gate.cohorts[k].members.Keys == Counting(g, c)
              && o.gate.cohorts[k].members[c.slice] == Member(c.node, c.bytes, c.now)
              && o.gate.admittingSince == if Holder(g, c) == k then g.admittingSince else c.now
  {
    hide OneForming, Entered, FreeStalled, Holder, Away, Counting, AlreadyReleased, BackedOff;
    var k := Key(c);
    HolderTells(g, g1, c);
    var members := g2.cohorts[k].members[c.slice := Member(c.node, c.bytes, c.now)];
    assert |members.Keys| == |members| && members.Keys == Counting(g, c);
  }

  // ----- Staying away -----

  /** The gang of reservation object `uid` lost the slot for stalling and must stay away until `until`. */
  predicate Benched(g: GateState, k: string, uid: string, until: int) {
    && k != "" && k in g.cohorts && !g.cohorts[k].released && g.cohorts[k].members == map[]
    && g.cohorts[k].rsvUID == uid
    && g.cohorts[k].createdAt >= until - 15 * SECOND && k in g.backoff && g.backoff[k] >= until && g.admitting != k
  }

  /** The check takes the slot from `k`, which has held it for more than 20 seconds. */
  predicate Evicts(g: GateState, c: Call, k: string) {
    && LiveGang(c) && !AlreadyReleased(g, c) && k != "" && g.admitting == k && Survives(g, c, k)
    && c.now - g.admittingSince > 20 * SECOND
  }

  /** A check that finds the slot held for more than 20 seconds sends its holder away for 15. */
  lemma StallBenches(g: GateState, c: Call, k: string)
    requires OneForming(g) && Evicts(g, c, k)
    ensures Benched(Check(g, c).gate, k, g.cohorts[k].rsvUID, c.now + 15 * SECOND)
    ensures k == Key(c) ==> Check(g, c).verdict == Wait
  {
    VerdictExactly(g, c);
    EnteredTells(g, c);
    var g1 := Entered(g, c);
    hide Entered;
    CheckOpens(g, c);
    FreedTells(g1, c.now, Key(c));
    CompeteCases(g1, c, c.reading.gangSize);
    hide Check, Compete, FreeStalled, Claim;
    SettleLeaves(FreeStalled(g1, c.now), k, c, c.reading.gangSize, c.now + 15 * SECOND, g.cohorts[k].rsvUID);
  }

  /** Freed and benched, a gang stays so through the rest of the check. */
  lemma SettleLeaves(g2: GateState, k: string, c: Call, size: int, until: int, uid: string)
    requires Key(c) in g2.cohorts && Benched(g2, k, uid, until) && c.now < until
    ensures var g3 := if g2.admitting == "" && !BackedOff(g2, Key(c), c.now)
                      then g2.(admitting := Key(c), admittingSince := c.now, backoff := g2.backoff - {Key(c)}) else g2;
            Benched(Settle(g3, Key(c), c, size).gate, k, uid, until)
            && (k == Key(c) ==> Settle(g3, Key(c), c, size).verdict == Wait)
  {
    if k == Key(c) {
      assert BackedOff(g2, k, c.now);
      var none: map<string, Member> := map[];
      assert none - {c.slice} == none;
    } else {
      OtherLeaves(g2, k, c, size, until, uid);
    }
    hide Benched, Settle;
  }

  lemma OtherLeaves(g2: GateState, k: string, c: Call, size: int, until: int, uid: string)
    requires Key(c) in g2.cohorts && Benched(g2, k, uid, until) && k != Key(c)
    ensures var g3 := if g2.admitting == "" && !BackedOff(g2, Key(c), c.now)
                      then g2.(admitting := Key(c), admittingSince := c.now, backoff := g2.backoff - {Key(c)}) else g2;
            Benched(Settle(g3, Key(c), c, size).gate, k, uid, until)
  {
    hide BackedOff;
  }

  /** The calls of this gang see the same reservation object, not terminal. */
  predicate SameGang(c: Call, k: string, uid: string) {
    Key(c) == k && c.reservation != "" && c.reading.Found? ==> c.reading.uid == uid && !c.reading.terminal
  }

  /** Until then every check leaves it away, and its own checks wait. */
  lemma BenchedStays(g: GateState, c: Call, k: string, uid: string, until: int)
    requires OneForming(g) && Benched(g, k, uid, until) && c.reapAt <= c.now < until && SameGang(c, k, uid)
    ensures Benched(Check(g, c).gate, k, uid, until)
    ensures Key(c) == k && LiveGang(c) ==> Check(g, c).verdict == Wait
  {
    if !LiveGang(c) {
      ClosedVerdict(g, c);
      if Check(g, c).verdict == Rejected { ForgetLeaves(g, c, k, uid, until); }
    } else {
      var g1 := Entered(g, c);
      EnteredKeeps(g, c, k, uid, until);
      hide Entered;
      CheckOpens(g, c);
      if !g1.cohorts[Key(c)].released {
        FreedKeeps(g1, c, k, uid, until);
        CompeteCases(g1, c, c.reading.gangSize);
        hide Check, Compete, FreeStalled, Claim, Benched, OneForming;
        SettleLeaves(FreeStalled(g1, c.now), k, c, c.reading.gangSize, until, uid);
      }
    }
  }

  lemma EnteredKeeps(g: GateState, c: Call, k: string, uid: string, until: int)
    requires OneForming(g) && Benched(g, k, uid, until) && c.reapAt <= c.now < until && SameGang(c, k, uid)
    requires LiveGang(c)
    ensures OneForming(Entered(g, c)) && Key(c) in Entered(g, c).cohorts && Benched(Entered(g, c), k, uid, until)
    ensures Key(c) == k ==> !Entered(g, c).cohorts[k].released
  {
    EnteredTells(g, c);
    hide Entered, OneForming;
  }

  lemma FreedKeeps(g1: GateState, c: Call, k: string, uid: string, until: int)
    requires OneForming(g1) && Benched(g1, k, uid, until) && Key(c) in g1.cohorts && !g1.cohorts[Key(c)].released
    ensures Benched(FreeStalled(g1, c.now), k, uid, until)
  {
    FreedTells(g1, c.now, Key(c));
    hide FreeStalled;
  }

  lemma ForgetLeaves(g: GateState, c: Call, k: string, uid: string, until: int)
    requires Benched(g, k, uid, until) && Key(c) != k && c.reservation != "" && c.reading.Found? && c.reading.terminal
    ensures Benched(Check(g, c).gate, k, uid, until)
  {
  }

  ghost function CheckAll(g: GateState, calls: seq<Call>): GateState
    decreases |calls|
  {
    if calls == [] then g else CheckAll(Check(g, calls[0]).gate, calls[1..])
  }

  /** Over histories: from the check that takes the slot from a stalled gang, every check of that gang in the next
      15 seconds answers Wait and leaves it without the slot, whatever other gangs do in between. */
  lemma {:induction false} StallerStaysAway(g: GateState, c: Call, k: string, calls: seq<Call>, i: nat)
    requires OneForming(g) && Evicts(g, c, k) && i < |calls|
    requires forall j :: 0 <= j < |calls| ==>
               && calls[j].reapAt <= calls[j].now < c.now + 15 * SECOND && SameGang(calls[j], k, g.cohorts[k].rsvUID)
    ensures var before := CheckAll(Check(g, c).gate, calls[..i]);
            && Check(before, calls[i]).gate.admitting != k
            && (Key(calls[i]) == k && LiveGang(calls[i]) ==> Check(before, calls[i]).verdict == Wait)
  {
    var uid, until := g.cohorts[k].rsvUID, c.now + 15 * SECOND;
    StallBenches(g, c, k);
    CheckKeepsOneForming(g, c);
    hide Check;
    BenchedThrough(Check(g, c).gate, calls[..i], k, uid, until);
    BenchedStays(CheckAll(Check(g, c).gate, calls[..i]), calls[i], k, uid, until);
  }

  lemma {:induction false} BenchedThrough(g: GateState, calls: seq<Call>, k: string, uid: string, until: int)
    requires OneForming(g) && Benched(g, k, uid, until)
    requires forall j :: 0 <= j < |calls| ==> calls[j].reapAt <= calls[j].now < until && SameGang(calls[j], k, uid)
    ensures OneForming(CheckAll(g, calls)) && Benched(CheckAll(g, calls), k, uid, until)
    decreases |calls|
  {
    hide Check, Benched, OneForming;
    if calls != [] {
      BenchedStays(g, calls[0], k, uid, until);
      CheckKeepsOneForming(g, calls[0]);
      BenchedThrough(Check(g, calls[0]).gate, calls[1..], k, uid, until);
    }
  }

  /** While one gang is away the slot is there for the others: with nobody holding it, the first live gang to check that
      is not away itself gets it, or tips at once. */
  lemma FreeSlotIsTaken(g: GateState, c: Call)
    requires OneForming(g) && LiveGang(c) && !AlreadyReleased(g, c) && Holder(g, c) == "" && !Away(g, c)
    ensures var o := Check(g, c);
            o.joined && ((o.verdict == Deferred && o.gate.admitting == Key(c)) || o.verdict == Allowed)
  {
    VerdictExactly(g, c);
    hide Check;
  }

  /** From any gate whatever: a slice told to wait is counted nowhere in its gang, one that tips its gang leaves the
      slot free and its gang without a wait to serve, and a gang without a cohort at the end was told to wait or
      rejected. */
  lemma CheckLeaves(g: GateState, c: Call)
    requires LiveGang(c)
    ensures var o, k := Check(g, c), Key(c);
            && (o.verdict == Wait && k in o.gate.cohorts ==> c.slice !in o.gate.cohorts[k].members)
            && (o.joined ==> k in o.gate.cohorts && c.slice in o.gate.cohorts[k].members)
            && (o.joined && o.verdict == Allowed ==> o.gate.admitting == "" && k !in o.gate.backoff)
            && (k !in o.gate.cohorts ==> o.verdict == Wait)
  {
    hide Forget, Reap, Claim, FreeStalled;
  }

  /** Unreleased cohorts older than 90 seconds are gone after any check of a live gang, and no others but the caller's
      own of another reservation object. */
  lemma OldCohortsGo(g: GateState, c: Call, k: string)
    requires OneForming(g) && LiveGang(c) && k != Key(c)
    ensures k in Check(g, c).gate.cohorts <==> Survives(g, c, k)
  {
    EnteredTells(g, c);
    var g1 := Entered(g, c);
    hide Entered;
    CheckOpens(g, c);
    if !g1.cohorts[Key(c)].released {
      FreedTells(g1, c.now, Key(c));
      CompeteCases(g1, c, c.reading.gangSize);
      hide Check, Compete, FreeStalled, Claim;
    }
  }
}
