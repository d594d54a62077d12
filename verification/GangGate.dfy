/**
 * The gang binding gate: one admission slot, cohorts of slices waiting for quorum, stall
 * timeout, backoff and reaping. `Check` is the decision as a function of the gate state;
 * the class `GangBindingGate` takes it in place. Times are nanoseconds of one clock.
 */
module GangGates {

  const SECOND := 1_000_000_000
  const MAX_HOLD_AGE := 90 * SECOND
  const ADMISSION_TIMEOUT := 20 * SECOND
  const ADMISSION_BACKOFF := 15 * SECOND

  // How long a fresh reservation lives, and a gang member's hold from its last re-check.
  const RESERVE_TTL := 30 * SECOND
  const GANG_HOLD_TTL := 50 * SECOND

  datatype Member = Member(node: string, bytes: int, heldAt: int)

  datatype Cohort = Cohort(
    gangSize: int, priority: int, members: map<string, Member>, released: bool, createdAt: int, rsvUID: string)

  /** `admitting == ""` means the slot is free. */
  datatype GateState = GateState(
    cohorts: map<string, Cohort>, admitting: string, admittingSince: int, backoff: map<string, int>)

  const EmptyGate := GateState(map[], "", 0, map[])

  datatype Verdict = NotApplicable | Allowed | Deferred | Rejected | Wait | Retry

  /** What reading the reservation object gave. */
  datatype Reading = NotVisible | Unreadable | Found(uid: string, gangSize: int, terminal: bool)

  /** One gate check: the slice, its reservation reading, and the two clock reads. */
  datatype Call = Call(
    namespace: string, reservation: string, slice: string, node: string, bytes: int,
    priority: int, reading: Reading, reapAt: int, now: int)

  function Key(c: Call): (k: string)
    ensures k != ""
  {
    c.namespace + "/" + c.reservation
  }

  /** The new state, the verdict, and whether this call registered its slice as a member. */
  datatype Outcome = Outcome(gate: GateState, verdict: Verdict, joined: bool)

  // ----- Ordering -----

  predicate StringLess(a: string, b: string) {
    if a == [] then b != []
    else b != [] && (a[0] < b[0] || (a[0] == b[0] && StringLess(a[1..], b[1..])))
  }

  predicate AdmissionLess(a: Cohort, aKey: string, b: Cohort, bKey: string) {
    if a.priority != b.priority then a.priority > b.priority
    else if a.createdAt != b.createdAt then a.createdAt < b.createdAt
    else StringLess(aKey, bKey)
  }

  // ----- The stages of a check -----

  function Stale(g: GateState, t: int): set<string> {
    set k | k in g.cohorts && !g.cohorts[k].released && t - g.cohorts[k].createdAt > MAX_HOLD_AGE
  }

  function Reap(g: GateState, t: int): GateState {
    var gone := Stale(g, t);
    GateState(g.cohorts - gone, if g.admitting in gone then "" else g.admitting, g.admittingSince, g.backoff - gone)
  }

  function Forget(g: GateState, key: string): GateState {
    GateState(g.cohorts - {key}, if g.admitting == key then "" else g.admitting, g.admittingSince, g.backoff - {key})
  }

  /** Drop a previous incarnation's cohort, then find or create this one's. */
  function Enroll(g: GateState, key: string, uid: string, gangSize: int, priority: int, now: int): GateState {
    var g' := if key in g.cohorts && g.cohorts[key].rsvUID != uid then Forget(g, key) else g;
    if key in g'.cohorts
    then g'.(cohorts := g'.cohorts[key := g'.cohorts[key].(priority := priority)])
    else g'.(cohorts := g'.cohorts[key := Cohort(gangSize, priority, map[], false, now, uid)])
  }

  predicate Stalled(g: GateState, now: int) {
    g.admitting != "" && now - g.admittingSince > ADMISSION_TIMEOUT
  }

  /** Whether the stalled holder is a cohort with no members left. */
  predicate GhostHolder(g: GateState) {
    g.admitting in g.cohorts && g.cohorts[g.admitting].members == map[]
  }

  function FreeStalled(g: GateState, now: int): GateState {
    if !Stalled(g, now) then g
    else if GhostHolder(g) then
      g.(cohorts := g.cohorts - {g.admitting}, backoff := g.backoff - {g.admitting}, admitting := "")
    else
      var backoff := g.backoff[g.admitting := now + ADMISSION_BACKOFF];
      if g.admitting in g.cohorts then
        var h := g.cohorts[g.admitting].(createdAt := now);
        var h' := if h.released then h else h.(members := map[]);
        g.(cohorts := g.cohorts[g.admitting := h'], backoff := backoff, admitting := "")
      else g.(backoff := backoff, admitting := "")
  }

  predicate BackedOff(g: GateState, key: string, now: int) {
    key in g.backoff && now < g.backoff[key]
  }

  /** The contending set. A memberless cohort may contend only in its own slice's check. */
  function Eligible(g: GateState, now: int, caller: string): set<string> {
    set k | k in g.cohorts && !g.cohorts[k].released
            && (k == caller || g.cohorts[k].members != map[]) && !BackedOff(g, k, now)
  }

  predicate IsHead(g: GateState, contenders: set<string>, head: string)
    requires contenders <= g.cohorts.Keys
  {
    head in contenders
    && forall k :: k in contenders && k != head ==> AdmissionLess(g.cohorts[head], head, g.cohorts[k], k)
  }

  ghost function HeadOf(g: GateState, contenders: set<string>): string
    requires contenders <= g.cohorts.Keys
  {
    if contenders == {} then ""
    else
      HeadExists(g, contenders);
      var head :| IsHead(g, contenders, head);
      head
  }

  ghost function Claim(g: GateState, now: int, caller: string): GateState {
    if g.admitting != "" then g
    else
      var contenders := Eligible(g, now, caller);
      var head := HeadOf(g, contenders);
      var g' := g.(backoff := g.backoff - contenders);
      if head != "" then g'.(admitting := head, admittingSince := now) else g'
  }

  /** Wait, or register and defer, or tip the cohort. */
  function Settle(g: GateState, key: string, c: Call, gangSize: int): Outcome
    requires key in g.cohorts
  {
    var cohort := g.cohorts[key];
    if g.admitting != key then
      Outcome(g.(cohorts := g.cohorts[key := cohort.(members := cohort.members - {c.slice})]), Wait, false)
    else
      var joined := cohort.(members := cohort.members[c.slice := Member(c.node, c.bytes, c.now)]);
      if |joined.members| >= gangSize
      then Outcome(g.(cohorts := g.cohorts[key := joined.(released := true)], admitting := "",
          backoff := g.backoff - {key}), Allowed, true)
      else Outcome(g.(cohorts := g.cohorts[key := joined]), Deferred, true)
  }

  ghost function Check(g: GateState, c: Call): Outcome {
    if c.reservation == "" then Outcome(g, NotApplicable, false)
    else
      match c.reading
      case NotVisible => Outcome(g, Retry, false)
      case Unreadable => Outcome(g, Retry, false)
      case Found(uid, gangSize, terminal) =>
        if terminal then Outcome(Forget(g, Key(c)), Rejected, false)
        else if gangSize <= 0 then Outcome(g, NotApplicable, false)
        else
          var g1 := Enroll(Reap(g, c.reapAt), Key(c), uid, gangSize, c.priority, c.now);
          if g1.cohorts[Key(c)].released then Outcome(g1, Allowed, false)
          else Compete(g1, c, gangSize)
  }

  /** The part of a check in which the slot may change hands. */
  ghost function Compete(g: GateState, c: Call, gangSize: int): Outcome
    requires Key(c) in g.cohorts
  {
    var g2 := Claim(FreeStalled(g, c.now), c.now, Key(c));
    if Key(c) in g2.cohorts then Settle(g2, Key(c), c, gangSize)
    else Outcome(g2, Wait, false)
  }

  // ----- The ordering is total, so the head does not depend on map iteration order -----

  lemma {:induction false} StringLessTotal(a: string, b: string)
    ensures a == b || StringLess(a, b) || StringLess(b, a)
    ensures !(StringLess(a, b) && StringLess(b, a)) && !StringLess(a, a)
  {
    if a != [] && b != [] && a[0] == b[0] {
      StringLessTotal(a[1..], b[1..]);
      assert a == [a[0]] + a[1..] && b == [b[0]] + b[1..];
    }
    if a != [] { StringLessTotal(a[1..], a[1..]); }
  }

  lemma {:induction false} StringLessTransitive(a: string, b: string, c: string)
    requires StringLess(a, b) && StringLess(b, c)
    ensures StringLess(a, c)
  {
    if a != [] && a[0] == b[0] == c[0] {
      StringLessTransitive(a[1..], b[1..], c[1..]);
    }
  }

  lemma AdmissionLessTotal(a: Cohort, aKey: string, b: Cohort, bKey: string)
    ensures aKey == bKey || AdmissionLess(a, aKey, b, bKey) || AdmissionLess(b, bKey, a, aKey)
    ensures !(AdmissionLess(a, aKey, b, bKey) && AdmissionLess(b, bKey, a, aKey))
  {
    StringLessTotal(aKey, bKey);
  }

  lemma AdmissionLessTransitive(a: Cohort, aKey: string, b: Cohort, bKey: string, c: Cohort, cKey: string)
    requires AdmissionLess(a, aKey, b, bKey) && AdmissionLess(b, bKey, c, cKey)
    ensures AdmissionLess(a, aKey, c, cKey)
  {
    if StringLess(aKey, bKey) && StringLess(bKey, cKey) {
      StringLessTransitive(aKey, bKey, cKey);
    }
  }

  lemma {:induction false} HeadExists(g: GateState, contenders: set<string>)
    requires contenders <= g.cohorts.Keys && contenders != {}
    ensures exists head :: IsHead(g, contenders, head)
    decreases contenders
  {
    var k :| k in contenders;
    if contenders == {k} {
      assert IsHead(g, contenders, k);
    } else {
      var rest := contenders - {k};
      HeadExists(g, rest);
      var head :| IsHead(g, rest, head);
      var best := if AdmissionLess(g.cohorts[k], k, g.cohorts[head], head) then k else head;
      AdmissionLessTotal(g.cohorts[k], k, g.cohorts[head], head);
      forall j | j in contenders && j != best ensures AdmissionLess(g.cohorts[best], best, g.cohorts[j], j) {
        if best == k && j != head { AdmissionLessTransitive(g.cohorts[k], k, g.cohorts[head], head, g.cohorts[j], j); }
      }
      assert IsHead(g, contenders, best);
    }
  }

  lemma HeadUnique(g: GateState, contenders: set<string>, a: string, b: string)
    requires contenders <= g.cohorts.Keys && IsHead(g, contenders, a) && IsHead(g, contenders, b)
    ensures a == b
  {
    AdmissionLessTotal(g.cohorts[a], a, g.cohorts[b], b);
  }
}

/** The mutable gate. */
module GangGateClass {
  import opened GangGates

  class GangBindingGate {
    var cohorts: map<string, Cohort>
    var admitting: string
    var admittingSince: int
    var backoff: map<string, int>

    ghost function View(): GateState
      reads this
    {
      GateState(cohorts, admitting, admittingSince, backoff)
    }

    constructor ()
      ensures View() == EmptyGate
    {
      cohorts, admitting, admittingSince, backoff := map[], "", 0, map[];
    }

    method ForgetCohort(key: string)
      requires key != ""
      modifies this
      ensures View() == Forget(old(View()), key)
    {
      cohorts := cohorts - {key};
      backoff := backoff - {key};
      if admitting == key { admitting := ""; }
    }

    /** Deletes stale cohorts from the maps while walking them. */
    method ReapStaleCohorts(t: int)
      requires "" !in cohorts
      modifies this
      ensures View() == Reap(old(View()), t)
    {
      var todo := cohorts.Keys;
      ghost var gone: set<string> := {};
      while todo != {}
        invariant todo <= cohorts.Keys <= old(cohorts).Keys
        invariant forall k :: k in gone <==> k in Stale(old(View()), t) && k !in todo
        invariant cohorts == old(cohorts) - gone && backoff == old(backoff) - gone
        invariant admitting == if old(admitting) in gone then "" else old(admitting)
        invariant admittingSince == old(admittingSince)
        decreases todo
      {
        var key :| key in todo;
        if !cohorts[key].released && t - cohorts[key].createdAt > MAX_HOLD_AGE {
          ForgetCohort(key);
          gone := gone + {key};
        }
        todo := todo - {key};
      }
      assert gone == Stale(old(View()), t);
    }

    /** The head of the contending set; deletes elapsed backoffs of contenders on the way. */
    method PickAdmissionHead(now: int, caller: string) returns (best: string)
      modifies this`backoff
      ensures var contenders := Eligible(old(View()), now, caller);
              best == HeadOf(old(View()), contenders) && backoff == old(backoff) - contenders
    {
      best := "";
      var found := false;
      var todo := cohorts.Keys;
      ghost var seen: set<string> := {};
      ghost var all := Eligible(old(View()), now, caller);
      while todo != {}
        invariant todo <= cohorts.Keys
        invariant forall k :: k in seen <==> k in all && k !in todo
        invariant forall k ::
            k in todo ==> (k in backoff <==> k in old(backoff)) && (k in backoff ==> backoff[k] == old(backoff)[k])
        invariant backoff == old(backoff) - seen
        invariant found == (seen != {}) && (!found ==> best == "")
        invariant found ==> IsHead(old(View()), seen, best)
        decreases todo
      {
        var key :| key in todo;
        todo := todo - {key};
        if !cohorts[key].released && (key == caller || cohorts[key].members != map[])
            && !(key in backoff && now < backoff[key]) {
          assert key in all;
          backoff := backoff - {key};
          if !found || AdmissionLess(cohorts[key], key, cohorts[best], best) {
            Overtake(old(View()), seen, best, key);
            best, found := key, true;
          } else {
            AdmissionLessTotal(cohorts[key], key, cohorts[best], best);
          }
          seen := seen + {key};
        }
      }
      assert seen == all;
      if all != {} {
        HeadExists(old(View()), all);
        HeadUnique(old(View()), all, best, HeadOf(old(View()), all));
      }
    }

    method CheckSliceWithCohort(c: Call) returns (verdict: Verdict)
      requires "" !in cohorts
      modifies this
      ensures View() == Check(old(View()), c).gate && verdict == Check(old(View()), c).verdict
    {
      if c.reservation == "" { return NotApplicable; }
      var key := Key(c);
      match c.reading {
        case NotVisible => return Retry;
        case Unreadable => return Retry;
        case Found(uid, gangSize, terminal) =>
          if terminal {
            ForgetCohort(key);
            return Rejected;
          }
          if gangSize <= 0 { return NotApplicable; }
          ReapStaleCohorts(c.reapAt);
          FindOrCreate(key, uid, gangSize, c.priority, c.now);
          if cohorts[key].released { return Allowed; }
          verdict := Admit(c, gangSize);
      }
    }

    method FindOrCreate(key: string, uid: string, gangSize: int, priority: int, now: int)
      requires key != ""
      modifies this
      ensures View() == Enroll(old(View()), key, uid, gangSize, priority, now)
    {
      var exists_ := key in cohorts;
      if exists_ && cohorts[key].rsvUID != uid {
        ForgetCohort(key);
        exists_ := false;
      }
      if exists_ {
        cohorts := cohorts[key := cohorts[key].(priority := priority)];
      } else {
        cohorts := cohorts[key := Cohort(gangSize, priority, map[], false, now, uid)];
      }
    }

    method FreeStalledHolder(now: int)
      modifies this
      ensures View() == FreeStalled(old(View()), now)
    {
      if admitting != "" && now - admittingSince > ADMISSION_TIMEOUT {
        if admitting in cohorts && cohorts[admitting].members == map[] {
          cohorts := cohorts - {admitting};
          backoff := backoff - {admitting};
        } else {
          backoff := backoff[admitting := now + ADMISSION_BACKOFF];
          if admitting in cohorts {
            var h := cohorts[admitting].(createdAt := now);
            if !h.released { h := h.(members := map[]); }
            cohorts := cohorts[admitting := h];
          }
        }
        admitting := "";
      }
    }

    method ClaimSlot(now: int, caller: string)
      modifies this
      ensures View() == Claim(old(View()), now, caller)
    {
      if admitting == "" {
        var head := PickAdmissionHead(now, caller);
        if head != "" {
          admitting, admittingSince := head, now;
        }
      }
    }

    method SettleCaller(key: string, c: Call, gangSize: int) returns (verdict: Verdict)
      requires key in cohorts
      modifies this
      ensures var o := Settle(old(View()), key, c, gangSize); View() == o.gate && verdict == o.verdict
    {
      if admitting != key {
        cohorts := cohorts[key := cohorts[key].(members := cohorts[key].members - {c.slice})];
        return Wait;
      }
      var members := cohorts[key].members[c.slice := Member(c.node, c.bytes, c.now)];
      cohorts := cohorts[key := cohorts[key].(members := members)];
      if |members| >= gangSize {
        cohorts := cohorts[key := cohorts[key].(released := true)];
        admitting := "";
        backoff := backoff - {key};
        return Allowed;
      }
      verdict := Deferred;
    }

    method Admit(c: Call, gangSize: int) returns (verdict: Verdict)
      requires Key(c) in cohorts
      modifies this
      ensures View() == Compete(old(View()), c, gangSize).gate && verdict == Compete(old(View()), c, gangSize).verdict
    {
      hide Claim, FreeStalled, Settle;
      var key := Key(c);
      FreeStalledHolder(c.now);
      ClaimSlot(c.now, key);
      if key !in cohorts { return Wait; }
      verdict := SettleCaller(key, c, gangSize);
    }
  }

  lemma Overtake(g: GateState, seen: set<string>, best: string, key: string)
    requires seen <= g.cohorts.Keys && key in g.cohorts && key !in seen
    requires seen != {} ==> IsHead(g, seen, best) && AdmissionLess(g.cohorts[key], key, g.cohorts[best], best)
    ensures IsHead(g, seen + {key}, key)
  {
    forall k | k in seen ensures AdmissionLess(g.cohorts[key], key, g.cohorts[k], k) {
      if k != best { AdmissionLessTransitive(g.cohorts[key], key, g.cohorts[best], best, g.cohorts[k], k); }
    }
  }
}
