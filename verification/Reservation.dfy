/**
 * Gang reservation lifecycle (internal/controller/vgpugangreservation_reconciler.go): the tally of
 * child slices, the phase function, the direct confirmation of a child loss, the teardown check and
 * the reconcile that drives them. Reads are values that may fail; one reconcile runs at a time.
 */
module Reservations {
  datatype Option<T> = None | Some(value: T)

  datatype Read<T> = Absent | Failing | Found(value: T)

  datatype Slice = Slice(deleting: bool, phase: string)

  /** What the reader answers for one child: `claim` carries whether the claim is being deleted. */
  datatype ChildView = ChildView(claim: Read<bool>, slice: Read<Slice>)

  datatype Phase = Unset | Pending | Reserving | Reserved | Committed | Failed | Released

  datatype Reason =
    | SlotFailure(slots: int) | AllCommitted | AllReserved | InProgress
    | DeadlineExceeded(deadline: int, slots: int) | StillReserving(slots: int)
    | SliceRegression | ChildLost(lost: int, missing: int, regenerated: int, deleting: int)
    | Degraded(ready: int) | NoTransition | TeardownComplete

  datatype Spec = Spec(gangSize: int, children: seq<string>, deadline: Option<int>)

  datatype Status = Status(phase: Phase, firstReserving: Option<int>, reserved: int, committed: int, failed: int,
                           perSlice: map<string, string>, message: Option<Reason>, failure: Option<Reason>)

  const Fresh := Status(Unset, None, 0, 0, 0, map[], None, None)

  datatype Tally = Tally(reserved: int, committed: int, failed: int, tearingDown: int, pending: int, missing: int,
      perSlice: map<string, string>)

  datatype Decision = Decision(phase: Phase, reason: Reason)

  const DefaultDeadline := 60

  function Rank(p: Phase): int {
    match p
    case Unset => 0
    case Pending => 0
    case Reserving => 1
    case Reserved => 2
    case Committed => 3
    case Failed => 4
    case Released => 5
  }

  // ----- What a child is -----

  predicate ClaimLive(v: ChildView) { v.claim.Found? && !v.claim.value }

  predicate SliceLive(v: ChildView) { ClaimLive(v) && v.slice.Found? && !v.slice.value.deleting }

  predicate Unreadable(v: ChildView) { v.claim.Failing? || (ClaimLive(v) && v.slice.Failing?) }

  /** Scheduled, allocating or ready, with neither claim nor slice on its way out. */
  predicate Holding(v: ChildView) { SliceLive(v) && v.slice.value.phase in ["Scheduled", "Allocating", "Ready"] }

  predicate Bound(v: ChildView) { SliceLive(v) && v.slice.value.phase == "Ready" }

  predicate SlotFailed(v: ChildView) { SliceLive(v) && v.slice.value.phase == "Failed" }

  predicate TearingDown(v: ChildView) {
    || (v.claim.Found? && v.claim.value)
    || (ClaimLive(v) && v.slice.Found?
        && (v.slice.value.deleting || v.slice.value.phase in ["Releasing", "Released", "Preempting"]))
  }

  predicate Missing(v: ChildView) { v.claim.Absent? }

  predicate Waiting(v: ChildView) {
    ClaimLive(v) && (v.slice.Absent? || (SliceLive(v) && !Holding(v) && !SlotFailed(v) && !TearingDown(v)))
  }

  predicate Gone(v: ChildView) { v.claim.Absent? && v.slice.Absent? }

  function Label(v: ChildView): string {
    if v.claim.Absent? then "ClaimMissing"
    else if v.claim.Found? && v.claim.value then "ClaimDeleting"
    else if !v.slice.Found? then "Pending"
    else if v.slice.value.deleting then "SliceDeleting"
    else match v.slice.value.phase
      case "Scheduled" => "Reserved"
      case "Allocating" => "Allocating"
      case "Ready" => "Bound"
      case "Failed" => "Failed"
      case "Releasing" => "Releasing"
      case "Released" => "Releasing"
      case "Preempting" => "Releasing"
      case "Pending" => "Pending"
      case "" => "Pending"
      case other => other
  }

  function Count(views: seq<ChildView>, which: ChildView -> bool): (n: int)
    ensures 0 <= n <= |views|
    ensures n > 0 <==> exists i :: 0 <= i < |views| && which(views[i])
  {
    if views == [] then 0
    else
      var n := Count(views[..|views| - 1], which);
      assert forall i :: 0 <= i < |views| - 1 ==> views[..|views| - 1][i] == views[i];
      n + if which(views[|views| - 1]) then 1 else 0
  }

  function Labels(names: seq<string>, views: seq<ChildView>): map<string, string>
    requires |names| == |views|
  {
    if names == [] then map[]
    else Labels(names[..|names| - 1], views[..|views| - 1])[names[|names| - 1] := Label(views[|views| - 1])]
  }

  function TallyOf(names: seq<string>, views: seq<ChildView>): Tally
    requires |names| == |views|
  {
    Tally(Count(views, Holding), Count(views, Bound), Count(views, SlotFailed), Count(views, TearingDown),
          Count(views, Waiting), Count(views, Missing), Labels(names, views))
  }

  predicate Readable(views: seq<ChildView>) { forall i :: 0 <= i < |views| ==> !Unreadable(views[i]) }

  lemma CountSnoc(views: seq<ChildView>, v: ChildView, which: ChildView -> bool)
    ensures Count(views + [v], which) == Count(views, which) + if which(v) then 1 else 0
  {
    assert (views + [v])[..|views|] == views;
  }

  lemma TallySnoc(names: seq<string>, views: seq<ChildView>, name: string, v: ChildView)
    requires |names| == |views|
    ensures var t, t' := TallyOf(names, views), TallyOf(names + [name], views + [v]);
            && t'.reserved == t.reserved + (if Holding(v) then 1 else 0)
            && t'.committed == t.committed + (if Bound(v) then 1 else 0)
            && t'.failed == t.failed + (if SlotFailed(v) then 1 else 0)
            && t'.tearingDown == t.tearingDown + (if TearingDown(v) then 1 else 0)
            && t'.pending == t.pending + (if Waiting(v) then 1 else 0)
            && t'.missing == t.missing + (if Missing(v) then 1 else 0)
            && t'.perSlice == t.perSlice[name := Label(v)]
  {
    CountSnoc(views, v, Holding);
    CountSnoc(views, v, Bound);
    CountSnoc(views, v, SlotFailed);
    CountSnoc(views, v, TearingDown);
    CountSnoc(views, v, Waiting);
    CountSnoc(views, v, Missing);
    assert (views + [v])[..|views|] == views && (names + [name])[..|names|] == names;
  }

  lemma TallyTake(names: seq<string>, views: seq<ChildView>, i: nat)
    requires |names| == |views| && i < |names|
    ensures var t, t', v := TallyOf(names[..i], views[..i]), TallyOf(names[..i + 1], views[..i + 1]), views[i];
            t' == Tally(t.reserved + (if Holding(v) then 1 else 0), t.committed + (if Bound(v) then 1 else 0),
                        t.failed + (if SlotFailed(v) then 1 else 0), t.tearingDown + (if TearingDown(v) then 1 else 0),
                        t.pending + (if Waiting(v) then 1 else 0), t.missing + (if Missing(v) then 1 else 0),
                            t.perSlice[names[i] := Label(v)])
  {
    TallySnoc(names[..i], views[..i], names[i], views[i]);
    assert names[..i + 1] == names[..i] + [names[i]] && views[..i + 1] == views[..i] + [views[i]];
    hide Label, Holding, Bound, SlotFailed, TearingDown, Waiting, Missing, Count, Labels;
  }

  lemma OneClass(v: ChildView)
    requires !Unreadable(v)
    ensures (if Holding(v) then 1 else 0) + (if SlotFailed(v) then 1 else 0) + (if TearingDown(v) then 1 else 0)
            + (if Waiting(v) then 1 else 0) + (if Missing(v) then 1 else 0) == 1
    ensures Bound(v) ==> Holding(v)
  {
    if SliceLive(v) {
      var p := v.slice.value.phase;
      assert Holding(v) <==> p == "Scheduled" || p == "Allocating" || p == "Ready";
      assert TearingDown(v) <==> p == "Releasing" || p == "Released" || p == "Preempting";
      assert "Scheduled"[0] != "Releasing"[0] && "Allocating"[0] != "Preempting"[0];
      assert |"Failed"| == 6 && |"Releasing"| == 9 && |"Released"| == 8 && |"Preempting"| == 10;
      assert |"Ready"| == 5 && |"Scheduled"| == 9 && |"Allocating"| == 10;
    }
  }

  /** One loop iteration of the tally, for a child that could be read. */
  method CountChild(t: Tally, name: string, v: ChildView) returns (t': Tally)
    requires !Unreadable(v)
    ensures t' == Tally(t.reserved + (if Holding(v) then 1 else 0), t.committed + (if Bound(v) then 1 else 0),
                        t.failed + (if SlotFailed(v) then 1 else 0), t.tearingDown + (if TearingDown(v) then 1 else 0),
                        t.pending + (if Waiting(v) then 1 else 0), t.missing + (if Missing(v) then 1 else 0),
                            t.perSlice[name := Label(v)])
  {
    t' := t.(perSlice := t.perSlice[name := Label(v)]);
    if v.claim.Absent? {
      t' := t'.(missing := t.missing + 1);
    } else if v.claim.value {
      t' := t'.(tearingDown := t.tearingDown + 1);
    } else if v.slice.Absent? {
      t' := t'.(pending := t.pending + 1);
    } else if v.slice.value.deleting {
      t' := t'.(tearingDown := t.tearingDown + 1);
    } else {
      match v.slice.value.phase
      case "Scheduled" => t' := t'.(reserved := t.reserved + 1);
      case "Allocating" => t' := t'.(reserved := t.reserved + 1);
      case "Ready" => t' := t'.(reserved := t.reserved + 1, committed := t.committed + 1);
      case "Failed" => t' := t'.(failed := t.failed + 1);
      case "Releasing" => t' := t'.(tearingDown := t.tearingDown + 1);
      case "Released" => t' := t'.(tearingDown := t.tearingDown + 1);
      case "Preempting" => t' := t'.(tearingDown := t.tearingDown + 1);
      case _ => t' := t'.(pending := t.pending + 1);
    }
  }

  method TallyChildSlices(names: seq<string>, views: seq<ChildView>) returns (r: Option<Tally>)
    requires |names| == |views|
    ensures r.Some? <==> Readable(views)
    ensures r.Some? ==> r.value == TallyOf(names, views)
  {
    hide Label, Holding, Bound, SlotFailed, TearingDown, Waiting, Missing;
    var t := Tally(0, 0, 0, 0, 0, 0, map[]);
    for i := 0 to |names|
      invariant t == TallyOf(names[..i], views[..i])
      invariant Readable(views[..i])
    {
      if views[i].claim.Failing? || (ClaimLive(views[i]) && views[i].slice.Failing?) {
        return None;
      }
      t := CountChild(t, names[i], views[i]);
      TallyTake(names, views, i);
    }
    assert names[..|names|] == names && views[..|views|] == views;
    r := Some(t);
  }

  /** The classes partition the children. */
  lemma {:induction false} TallyPartitions(names: seq<string>, views: seq<ChildView>)
    requires |names| == |views| && Readable(views)
    ensures var t := TallyOf(names, views);
            t.reserved + t.failed + t.tearingDown + t.pending + t.missing == |names| && t.committed <= t.reserved
    decreases |names|
  {
    if names != [] {
      var n := |names| - 1;
      TallyPartitions(names[..n], views[..n]);
      OneClass(views[n]);
      TallyTake(names, views, n);
      assert names[..n + 1] == names && views[..n + 1] == views;
      hide Label, Holding, Bound, SlotFailed, TearingDown, Waiting, Missing, Count, Labels, TallyOf;
    }
  }

  // ----- The phase function -----

  function DecideNextPhase(spec: Spec, s: Status, t: Tally, now: int): Decision {
    if t.failed > 0 then Decision(Failed, SlotFailure(t.failed))
    else if t.committed >= spec.gangSize then Decision(Committed, AllCommitted)
    else if t.reserved >= spec.gangSize && s.phase != Committed then Decision(Reserved, AllReserved)
    else match s.phase
      case Unset => Decision(Reserving, InProgress)
      case Pending => Decision(Reserving, InProgress)
      case Reserving =>
        var deadline := if spec.deadline.Some? then spec.deadline.value else DefaultDeadline;
        if s.firstReserving.Some? && now - s.firstReserving.value > deadline
        then Decision(Failed, DeadlineExceeded(deadline, t.reserved))
        else Decision(Reserving, StillReserving(t.reserved))
      case Reserved => Decision(Failed, SliceRegression)
      case Committed =>
        var lost := t.missing + t.pending + t.tearingDown;
        if lost > 0 then Decision(Failed, ChildLost(lost, t.missing, t.pending, t.tearingDown))
        else Decision(Committed, Degraded(t.committed))
      case _ => Decision(s.phase, NoTransition)
  }

  /** A committed gang is held as degraded exactly when every child is scheduled, allocating or ready,
      and too few are ready. */
  lemma HeldDegradedExactly(spec: Spec, s: Status, views: seq<ChildView>, now: int)
    requires |spec.children| == |views| && Readable(views) && s.phase == Committed
    ensures DecideNextPhase(spec, s, TallyOf(spec.children, views), now).reason.Degraded?
       <==> (forall i :: 0 <= i < |views| ==> Holding(views[i])) && Count(views, Bound) < spec.gangSize
  {
    hide Count, Labels, Holding, Bound, SlotFailed, TearingDown, Waiting, Missing;
    TallyPartitions(spec.children, views);
    AllHolding(views);
  }

  lemma {:induction false} AllHolding(views: seq<ChildView>)
    ensures Count(views, Holding) == |views| <==> forall i :: 0 <= i < |views| ==> Holding(views[i])
    decreases |views|
  {
    if views != [] {
      var n := |views| - 1;
      AllHolding(views[..n]);
      assert forall i :: 0 <= i < n ==> views[..n][i] == views[i];
    }
  }

  // ----- Confirmation and teardown loops -----

  /** The direct reader confirms a loss: the first child that is not holding could be read. */
  ghost predicate LossSeen(views: seq<ChildView>) {
    exists i :: 0 <= i < |views| && !Holding(views[i]) && !Unreadable(views[i])
        && (forall j :: 0 <= j < i ==> Holding(views[j]))
  }

  /** Some(true): confirmed; Some(false): not lost; None: the direct read failed. */
  method ChildLossConfirmedDirect(direct: Option<seq<ChildView>>) returns (r: Option<bool>)
    ensures r == Some(true) <==> direct.None? || LossSeen(direct.value)
    ensures r == Some(false) <==> direct.Some? && forall i :: 0 <= i < |direct.value| ==> Holding(direct.value[i])
  {
    if direct.None? {
      return Some(true);
    }
    var views := direct.value;
    for i := 0 to |views|
      invariant forall j :: 0 <= j < i ==> Holding(views[j])
    {
      var v := views[i];
      if v.claim.Failing? {
        return None;
      }
      if v.claim.Absent? || v.claim.value {
        return Some(true);
      }
      if v.slice.Failing? {
        return None;
      }
      if v.slice.Absent? || v.slice.value.deleting || v.slice.value.phase !in ["Scheduled", "Allocating", "Ready"] {
        return Some(true);
      }
    }
    r := Some(false);
  }

  predicate EveryChildGone(views: seq<ChildView>) { forall i :: 0 <= i < |views| ==> Gone(views[i]) }

  method AllGone(views: seq<ChildView>) returns (gone: bool)
    ensures gone <==> EveryChildGone(views)
  {
    gone := true;
    for i := 0 to |views|
      invariant gone && forall j :: 0 <= j < i ==> Gone(views[j])
    {
      if !views[i].claim.Absent? {
        return false;
      }
      if !views[i].slice.Absent? {
        return false;
      }
    }
  }

  // ----- Reconcile -----

  /** Everything one reconcile reads, and whether its status write lands. `remaining` is the teardown check's
      pass over the children, `again` the pass after a teardown. */
  datatype Round = Round(found: bool, deleting: bool, views: seq<ChildView>, direct: Option<seq<ChildView>>,
                         remaining: seq<ChildView>, again: seq<ChildView>, written: bool, now: int, stamp: int)

  predicate Fits(spec: Spec, e: Round) {
    |e.views| == |e.remaining| == |e.again| == |spec.children|
        && (e.direct.Some? ==> |e.direct.value| == |spec.children|)
  }

  function Applied(s: Status, next: Phase, reason: Option<Reason>, t: Tally, stamp: int): Status {
    s.(phase := next,
       firstReserving := if next == Reserving && s.firstReserving.None? then Some(stamp) else s.firstReserving,
       reserved := t.reserved, committed := t.committed, failed := t.failed, perSlice := t.perSlice, message := reason,
       failure := if next == Failed && s.failure.None? then reason else s.failure)
  }

  /** The reservation is there, alive, unfinished, and its children could be read. */
  predicate Active(s: Status, e: Round) {
    e.found && !e.deleting && s.phase != Released && Readable(e.views)
  }

  /** A suspected post-commit child loss that the direct reader does not confirm. */
  ghost predicate HeldBack(spec: Spec, s: Status, e: Round)
    requires Fits(spec, e)
  {
    && s.phase == Committed && DecideNextPhase(spec, s, TallyOf(spec.children, e.views), e.now).reason.ChildLost?
    && e.direct.Some? && !LossSeen(e.direct.value)
  }

  /** The round decides on `read`, the status it got first, and writes over `s`, the status when the write lands. */
  ghost function NextOver(spec: Spec, read: Status, s: Status, e: Round): Status
    requires Fits(spec, e)
  {
    if !Active(read, e) || !e.written then s
    else
      var t := TallyOf(spec.children, e.views);
      if read.phase == Failed then
        if EveryChildGone(e.remaining) then Applied(s, Released, Some(TeardownComplete), t, e.stamp)
        else Applied(s, Failed, read.failure, t, e.stamp)
      else if HeldBack(spec, read, e) then s
      else
        var d := DecideNextPhase(spec, read, t, e.now);
        var t' := if d.phase == Failed && Readable(e.again) then TallyOf(spec.children, e.again) else t;
        Applied(s, d.phase, Some(d.reason), t', e.stamp)
  }

  ghost function Next(spec: Spec, s: Status, e: Round): Status
    requires Fits(spec, e)
  {
    NextOver(spec, s, s, e)
  }

  /** Whether this round deletes the surviving children. */
  ghost predicate TearsDown(spec: Spec, s: Status, e: Round)
    requires Fits(spec, e)
  {
    Active(s, e) &&
    if s.phase == Failed then !EveryChildGone(e.remaining)
    else !HeldBack(spec, s, e) && DecideNextPhase(spec, s, TallyOf(spec.children, e.views), e.now).phase == Failed
  }

  class Reservation {
    const spec: Spec
    var status: Status

    constructor (spec: Spec)
      ensures this.spec == spec && status == Fresh
    {
      this.spec := spec;
      status := Fresh;
    }

    method ApplyPhase(next: Phase, reason: Option<Reason>, t: Tally, stamp: int, written: bool)
      modifies this
      ensures status == if written then Applied(old(status), next, reason, t, stamp) else old(status)
    {
      if !written {
        return;
      }
      if next == Reserving && status.firstReserving.None? {
        status := status.(firstReserving := Some(stamp));
      }
      status := status.(phase := next, reserved := t.reserved, committed := t.committed, failed := t.failed,
                        perSlice := t.perSlice, message := reason);
      if next == Failed && status.failure.None? {
        status := status.(failure := reason);
      }
    }

    /** `torn` says whether the surviving children were deleted. */
    method ContinueTeardown(read: Status, t: Tally, e: Round) returns (torn: bool)
      modifies this
      ensures torn == !EveryChildGone(e.remaining)
      ensures status == if !e.written then old(status)
                        else if torn then Applied(old(status), Failed, read.failure, t, e.stamp)
                        else Applied(old(status), Released, Some(TeardownComplete), t, e.stamp)
    {
      var gone := AllGone(e.remaining);
      if gone {
        ApplyPhase(Released, Some(TeardownComplete), t, e.stamp, e.written);
        return false;
      }
      ApplyPhase(Failed, read.failure, t, e.stamp, e.written);
      torn := true;
    }

    /** `read` is the status the reconcile got first; the write re-reads the object. */
    method Reconcile(read: Status, e: Round) returns (torn: bool)
      requires Fits(spec, e)
      modifies this
      ensures status == NextOver(spec, read, old(status), e) && torn == TearsDown(spec, read, e)
    {
      hide Count, Labels, Holding, Bound, SlotFailed, TearingDown, Waiting, Missing, Unreadable, Gone, TallyOf;
      torn := false;
      if !e.found || e.deleting || read.phase == Released {
        return;
      }
      var tallied := TallyChildSlices(spec.children, e.views);
      if tallied.None? {
        return;
      }
      var t := tallied.value;
      if read.phase == Failed {
        torn := ContinueTeardown(read, t, e);
        return;
      }
      var d := DecideNextPhase(spec, read, t, e.now);
      if d.phase == Failed && read.phase == Committed && d.reason.ChildLost? {
        var confirmed := ChildLossConfirmedDirect(e.direct);
        if confirmed != Some(true) {
          return;
        }
      }
      if d.phase == Failed {
        torn := true;
        var again := TallyChildSlices(spec.children, e.again);
        if again.Some? {
          t := again.value;
        }
      }
      ApplyPhase(d.phase, Some(d.reason), t, e.stamp, e.written);
    }
  }

  // ----- Children in the API's own terms -----

  /** The claim and its slice exist, neither is being deleted, and the slice is in one of these phases. */
  predicate SliceIn(v: ChildView, phases: set<string>) {
    v.claim == Found(false) && v.slice.Found? && !v.slice.value.deleting && v.slice.value.phase in phases
  }

  predicate HasSlot(v: ChildView) { SliceIn(v, {"Scheduled", "Allocating", "Ready"}) }

  predicate IsReady(v: ChildView) { SliceIn(v, {"Ready"}) }

  predicate HasFailed(v: ChildView) { SliceIn(v, {"Failed"}) }

  /** Claim or slice is being deleted, or the slice is in a phase that gives its slot back. */
  predicate OnTheWayOut(v: ChildView) {
    v.claim == Found(true)
    || (v.claim == Found(false) && v.slice.Found? && v.slice.value.deleting)
    || SliceIn(v, {"Releasing", "Released", "Preempting"})
  }

  predicate ReadFailed(v: ChildView) { v.claim == Failing || (v.claim == Found(false) && v.slice == Failing) }

  function Slots(views: seq<ChildView>): int { Count(views, HasSlot) }

  function Readies(views: seq<ChildView>): int { Count(views, IsReady) }

  predicate SomeFailed(views: seq<ChildView>) { exists i :: 0 <= i < |views| && HasFailed(views[i]) }

  predicate AllRead(views: seq<ChildView>) { forall i :: 0 <= i < |views| ==> !ReadFailed(views[i]) }

  /** The first child without its slot could be read. */
  predicate LossShown(views: seq<ChildView>) {
    exists i :: 0 <= i < |views| && !HasSlot(views[i]) && !ReadFailed(views[i])
        && (forall j :: 0 <= j < i ==> HasSlot(views[j]))
  }

  /** The reservation exists, is not being deleted and not finished, every child was read, and the write lands. */
  predicate Answered(s: Status, e: Round) {
    e.found && !e.deleting && e.written && s.phase != Released && AllRead(e.views)
  }

  /** The classes of the tally are these. */
  lemma ChildTerms(v: ChildView)
    ensures Holding(v) == HasSlot(v) && Bound(v) == IsReady(v) && SlotFailed(v) == HasFailed(v)
    ensures Unreadable(v) == ReadFailed(v)
  {
    if v.claim.Found? && !v.claim.value && v.slice.Found? {
      var p := v.slice.value.phase;
      assert p in ["Scheduled", "Allocating", "Ready"] <==> p == "Scheduled" || p == "Allocating" || p == "Ready";
    }
  }

  lemma {:induction false} SameCount(views: seq<ChildView>, f: ChildView -> bool, g: ChildView -> bool)
    requires forall v :: f(v) == g(v)
    ensures Count(views, f) == Count(views, g)
    decreases |views|
  {
    if views != [] { SameCount(views[..|views| - 1], f, g); }
  }

  lemma RoundTerms(views: seq<ChildView>)
    ensures Count(views, Holding) == Slots(views) && Count(views, Bound) == Readies(views)
    ensures Count(views, SlotFailed) == Count(views, HasFailed) && (Count(views, SlotFailed) > 0 <==> SomeFailed(views))
    ensures Readable(views) <==> AllRead(views)
    ensures LossSeen(views) <==> LossShown(views)
  {
    hide Count, Holding, Bound, SlotFailed, Unreadable, HasSlot, IsReady, HasFailed, ReadFailed;
    forall v: ChildView
      ensures Holding(v) == HasSlot(v) && Bound(v) == IsReady(v) && SlotFailed(v) == HasFailed(v)
      ensures Unreadable(v) == ReadFailed(v)
    {
      ChildTerms(v);
    }
    SameCount(views, Holding, HasSlot);
    SameCount(views, Bound, IsReady);
    SameCount(views, SlotFailed, HasFailed);
  }

  lemma AllSlots(views: seq<ChildView>)
    ensures Slots(views) == |views| <==> forall i :: 0 <= i < |views| ==> HasSlot(views[i])
    ensures Slots(views) <= |views| && Readies(views) <= |views|
  {
    hide Count, Holding, HasSlot;
    AllHolding(views);
    RoundTerms(views);
    forall v: ChildView ensures Holding(v) == HasSlot(v) { ChildTerms(v); }
  }

  lemma LossShownMeans(views: seq<ChildView>)
    requires LossShown(views)
    ensures exists i :: 0 <= i < |views| && !HasSlot(views[i]) && !ReadFailed(views[i])
  {
  }

  // ----- What one reconcile guarantees -----

  lemma RankNeverFalls(spec: Spec, s: Status, e: Round)
    requires Fits(spec, e)
    ensures Rank(Next(spec, s, e).phase) >= Rank(s.phase)
  {
    hide Count, TallyOf, Readable, LossSeen, EveryChildGone;
  }

  /** How long a gang may stay Reserving: 60 seconds unless the spec says otherwise. */
  function DeadlineOf(spec: Spec): int { if spec.deadline.Some? then spec.deadline.value else 60 }

  /** Where a gang that has not committed yet goes: Committed with enough children ready, Reserved with enough slots
      held, Failed on a failed slice, on a slot lost after Reserved, or past the deadline, and Reserving otherwise. */
  lemma PhaseExactly(spec: Spec, s: Status, e: Round)
    requires Fits(spec, e) && Answered(s, e) && s.phase in {Unset, Pending, Reserving, Reserved}
    ensures var next, size := Next(spec, s, e).phase, spec.gangSize;
            && (next == Committed <==> !SomeFailed(e.views) && Readies(e.views) >= size)
            && (next == Reserved <==> !SomeFailed(e.views) && Readies(e.views) < size <= Slots(e.views))
            && (next == Failed <==>
                  || SomeFailed(e.views)
                  || (s.phase == Reserved && Slots(e.views) < size)
                  || (&& s.phase == Reserving && Slots(e.views) < size && s.firstReserving.Some?
                      && e.now - s.firstReserving.value > DeadlineOf(spec)))
            && next in {Reserving, Reserved, Committed, Failed}
  {
    hide Count, Labels, Holding, Bound, SlotFailed, TearingDown, Waiting, Missing, Unreadable, Readable, LossSeen,
        LossShown;
    hide Slots, Readies, SomeFailed, HasSlot, HasFailed, ReadFailed, AllRead, EveryChildGone, Gone;
    RoundTerms(e.views);
    TallyPartitions(spec.children, e.views);
  }

  /** A committed gang stays so or fails, and fails exactly when a child's slice is Failed, or fewer than gangSize are
      ready, some child no longer has its slot, and the direct reader, when wired, confirms it. */
  lemma CommittedFailsExactly(spec: Spec, s: Status, e: Round)
    requires Fits(spec, e) && s.phase == Committed && Answered(s, e)
    ensures Next(spec, s, e).phase in {Committed, Failed}
    ensures Next(spec, s, e).phase == Failed <==>
            || SomeFailed(e.views)
            || (&& Readies(e.views) < spec.gangSize
                && (exists i :: 0 <= i < |e.views| && !HasSlot(e.views[i]))
                && (e.direct.None? || LossShown(e.direct.value)))
  {
    hide Count, Labels, Holding, Bound, SlotFailed, TearingDown, Waiting, Missing, Unreadable, Readable, LossSeen,
        LossShown;
    hide Slots, Readies, SomeFailed, HasSlot, HasFailed, ReadFailed, AllRead, EveryChildGone, Gone;
    RoundTerms(e.views);
    if e.direct.Some? { RoundTerms(e.direct.value); }
    TallyPartitions(spec.children, e.views);
    AllSlots(e.views);
  }

  /** A round that cannot find or read what it needs, or whose write is lost, changes nothing; neither does one that
      suspects a loss the direct reader does not confirm. */
  lemma OtherwiseNothing(spec: Spec, s: Status, e: Round)
    requires Fits(spec, e)
    ensures !Answered(s, e) ==> Next(spec, s, e) == s
    ensures s.phase == Committed && !SomeFailed(e.views) && Readies(e.views) < spec.gangSize && e.direct.Some?
            && (exists i :: 0 <= i < |e.views| && !HasSlot(e.views[i])) && !LossShown(e.direct.value)
            ==> Next(spec, s, e) == s
  {
    hide Count, Labels, Holding, Bound, SlotFailed, TearingDown, Waiting, Missing, Unreadable, Readable, LossSeen,
        LossShown;
    hide Slots, Readies, SomeFailed, HasSlot, HasFailed, ReadFailed, AllRead, EveryChildGone, Gone;
    RoundTerms(e.views);
    if e.direct.Some? { RoundTerms(e.direct.value); }
    if AllRead(e.views) { TallyPartitions(spec.children, e.views); }
    AllSlots(e.views);
  }

  /** The children this round reports on: those read after a teardown it started, if that pass succeeded. */
  ghost function Reported(spec: Spec, s: Status, e: Round): seq<ChildView>
    requires Fits(spec, e)
  {
    if s.phase != Failed && Next(spec, s, e).phase == Failed && AllRead(e.again) then e.again else e.views
  }

  /** A round that writes reports the slots held, ready and failed, stamps the deadline clock on the first Reserving,
      and keeps the first reason for a failure. */
  lemma StatusReports(spec: Spec, s: Status, e: Round)
    requires Fits(spec, e) && Answered(s, e) && Next(spec, s, e) != s
    ensures var s', views := Next(spec, s, e), Reported(spec, s, e);
            && s'.reserved == Slots(views) && s'.committed == Readies(views) && s'.failed == Count(views, HasFailed)
            && s'.perSlice == Labels(spec.children, views)
            && (s'.firstReserving ==
                if s'.phase == Reserving && s.firstReserving.None? then Some(e.stamp) else s.firstReserving)
            && (s'.failure == if s'.phase == Failed && s.failure.None? then s'.message else s.failure)
  {
    hide Count, Labels, Holding, Bound, SlotFailed, TearingDown, Waiting, Missing, Unreadable, Readable, LossSeen,
        LossShown;
    hide Slots, Readies, SomeFailed, HasSlot, HasFailed, ReadFailed, AllRead, EveryChildGone, Gone;
    RoundTerms(e.views);
    RoundTerms(e.again);
  }

  /** A teardown still under way repeats the reason first read, whatever has been written since. */
  lemma TeardownRepeatsReason(spec: Spec, read: Status, s: Status, e: Round)
    requires Fits(spec, e) && Answered(read, e) && read.phase == Failed && !EveryChildGone(e.remaining)
    ensures var s' := NextOver(spec, read, s, e); s'.phase == Failed && s'.message == read.failure
    ensures s.failure.Some? ==> NextOver(spec, read, s, e).failure == s.failure
  {
    hide Count, Labels, Holding, Bound, SlotFailed, TearingDown, Waiting, Missing;
    RoundTerms(e.views);
  }

  /** The reason given for a failure is its cause. */
  lemma ReasonTells(spec: Spec, s: Status, e: Round)
    requires Fits(spec, e) && Answered(s, e) && s.phase != Failed && Next(spec, s, e).phase == Failed
    ensures var why := Next(spec, s, e).message;
            && why.Some?
            && (SomeFailed(e.views) ==> why.value == SlotFailure(Count(e.views, HasFailed)))
            && (!SomeFailed(e.views) && s.phase == Reserved ==> why.value == SliceRegression)
            && (!SomeFailed(e.views) && s.phase == Reserving ==>
                  why.value == DeadlineExceeded(DeadlineOf(spec), Slots(e.views)))
            && (!SomeFailed(e.views) && s.phase == Committed ==>
                  && why.value.ChildLost? && why.value.lost == |e.views| - Slots(e.views)
                  && why.value.missing == Count(e.views, (v: ChildView) => v.claim == Absent)
                  && why.value.deleting == Count(e.views, (v: ChildView) => OnTheWayOut(v)))
            && (SomeFailed(e.views) || s.phase in {Reserved, Reserving, Committed})
  {
    hide Count, Labels, Holding, Bound, SlotFailed, TearingDown, Waiting, Missing, Unreadable, Readable, LossSeen,
        LossShown;
    hide Slots, Readies, SomeFailed, HasSlot, HasFailed, ReadFailed, AllRead, EveryChildGone, Gone;
    RoundTerms(e.views);
    TallyPartitions(spec.children, e.views);
    LostTerms(e.views);
  }

  lemma LostTerms(views: seq<ChildView>)
    ensures Count(views, Missing) == Count(views, (v: ChildView) => v.claim == Absent)
    ensures Count(views, TearingDown) == Count(views, (v: ChildView) => OnTheWayOut(v))
  {
    SameCount(views, Missing, (v: ChildView) => v.claim == Absent);
    SameCount(views, TearingDown, (v: ChildView) => OnTheWayOut(v));
    hide Count;
  }

  /** What the status says of each child, when no two share a name. */
  lemma {:induction false} LabelOfChild(names: seq<string>, views: seq<ChildView>, i: nat)
    requires |names| == |views| && i < |names| && forall j, k :: 0 <= j < k < |names| ==> names[j] != names[k]
    ensures names[i] in Labels(names, views) && Labels(names, views)[names[i]] == Label(views[i])
    decreases |names|
  {
    hide Label;
    var n := |names| - 1;
    if i < n { LabelOfChild(names[..n], views[..n], i); }
  }

  lemma LabelTells(v: ChildView)
    ensures v.claim == Absent ==> Label(v) == "ClaimMissing"
    ensures v.claim == Found(true) ==> Label(v) == "ClaimDeleting"
    ensures v.claim == Found(false) && v.slice == Absent ==> Label(v) == "Pending"
    ensures v.claim == Found(false) && v.slice.Found? && v.slice.value.deleting ==> Label(v) == "SliceDeleting"
    ensures SliceIn(v, {"Scheduled"}) ==> Label(v) == "Reserved"
    ensures SliceIn(v, {"Allocating"}) ==> Label(v) == "Allocating"
    ensures SliceIn(v, {"Ready"}) ==> Label(v) == "Bound"
    ensures SliceIn(v, {"Failed"}) ==> Label(v) == "Failed"
    ensures SliceIn(v, {"Releasing", "Released", "Preempting"}) ==> Label(v) == "Releasing"
    ensures SliceIn(v, {"Pending", ""}) ==> Label(v) == "Pending"
  {
  }

  /** The children are torn down exactly by the rounds that fail the gang or find it failed with children left. */
  lemma TearsDownExactly(spec: Spec, s: Status, e: Round)
    requires Fits(spec, e)
    ensures Answered(s, e) ==> (TearsDown(spec, s, e) <==> Next(spec, s, e).phase == Failed)
    ensures !Answered(s.(phase := Failed), e.(written := true)) ==> !TearsDown(spec, s, e)
  {
    hide Count, Labels, Holding, Bound, SlotFailed, TearingDown, Waiting, Missing, Unreadable, Readable, LossSeen,
        LossShown;
    hide Slots, Readies, SomeFailed, HasSlot, HasFailed, ReadFailed, AllRead, EveryChildGone, Gone;
    RoundTerms(e.views);
  }

  /** The survivors of a committed gang are deleted only on a Failed slice or a confirmed loss. */
  lemma CommittedTeardownIsConfirmed(spec: Spec, s: Status, e: Round)
    requires Fits(spec, e) && s.phase == Committed
    ensures TearsDown(spec, s, e) ==>
              || SomeFailed(e.views)
              || e.direct.None?
              || exists i :: 0 <= i < |e.direct.value| && !HasSlot(e.direct.value[i]) && !ReadFailed(e.direct.value[i])
  {
    hide Count, Labels, Holding, Bound, SlotFailed, TearingDown, Waiting, Missing, Unreadable, Readable, LossSeen,
        LossShown;
    hide Slots, Readies, SomeFailed, HasSlot, HasFailed, ReadFailed, AllRead, EveryChildGone, Gone;
    RoundTerms(e.views);
    if e.direct.Some? {
      RoundTerms(e.direct.value);
      if LossShown(e.direct.value) { LossShownMeans(e.direct.value); }
    }
  }

  /** Released is entered only from Failed, and exactly when every child claim and slice is absent. */
  lemma ReleasedExactly(spec: Spec, s: Status, e: Round)
    requires Fits(spec, e) && s.phase != Released
    ensures Next(spec, s, e).phase == Released
        <==> (&& s.phase == Failed && Answered(s, e)
              && forall i :: 0 <= i < |e.remaining| ==>
                  e.remaining[i].claim == Absent && e.remaining[i].slice == Absent)
  {
    hide Count, Labels, Holding, Bound, SlotFailed, TearingDown, Waiting, Missing, Unreadable, Readable, LossSeen,
        LossShown;
    hide Slots, Readies, SomeFailed, HasSlot, HasFailed, ReadFailed, AllRead;
    RoundTerms(e.views);
  }

  /** A round that reads and writes leaves no reservation Reserving past its deadline. */
  lemma DeadlineIsKept(spec: Spec, s: Status, e: Round)
    requires Fits(spec, e) && Answered(s, e) && s.phase == Reserving && s.firstReserving.Some?
    ensures Next(spec, s, e).phase == Reserving ==> e.now - s.firstReserving.value <= DeadlineOf(spec)
  {
    hide Count, Labels, Holding, Bound, SlotFailed, TearingDown, Waiting, Missing, Unreadable, Readable, LossSeen,
        LossShown;
    hide Slots, Readies, SomeFailed, HasSlot, HasFailed, ReadFailed, AllRead, EveryChildGone, Gone;
    RoundTerms(e.views);
  }

  // ----- What every run guarantees -----

  /** A round and the status it read first, perhaps not the latest. */
  datatype Turn = Turn(read: Status, round: Round)

  predicate AllFit(spec: Spec, run: seq<Turn>) { forall i :: 0 <= i < |run| ==> Fits(spec, run[i].round) }

  ghost function After(spec: Spec, s: Status, run: seq<Turn>): Status
    requires AllFit(spec, run)
    decreases |run|
  {
    if run == [] then s else After(spec, NextOver(spec, run[0].read, s, run[0].round), run[1..])
  }

  /** The phase read may be an old one, as long as the gang has since gone no further than that, or than Reserving, or
      has been Released and the children are still all gone. */
  predicate RecentEnough(read: Status, s: Status, e: Round) {
    && Rank(read.phase) <= Rank(s.phase)
    && (|| Rank(s.phase) <= Rank(read.phase) || Rank(s.phase) <= Rank(Reserving)
        || (read.phase == Failed && EveryChildGone(e.remaining)))
  }

  /** Every turn reads recently enough. */
  ghost predicate Recent(spec: Spec, s: Status, run: seq<Turn>)
    requires AllFit(spec, run)
  {
    forall i :: 0 <= i < |run| ==> RecentEnough(run[i].read, After(spec, s, run[..i]), run[i].round)
  }

  lemma RecentTail(spec: Spec, s: Status, run: seq<Turn>)
    requires AllFit(spec, run) && run != [] && Recent(spec, s, run)
    ensures RecentEnough(run[0].read, s, run[0].round)
    ensures Recent(spec, NextOver(spec, run[0].read, s, run[0].round), run[1..])
  {
    hide NextOver, RecentEnough;
    assert After(spec, s, run[..0]) == s;
    var s1 := NextOver(spec, run[0].read, s, run[0].round);
    forall i | 0 <= i < |run| - 1
      ensures RecentEnough(run[1..][i].read, After(spec, s1, run[1..][..i]), run[1..][i].round)
    {
      assert run[..i + 1][1..] == run[1..][..i] && run[..i + 1][0] == run[0];
      assert RecentEnough(run[i + 1].read, After(spec, s, run[..i + 1]), run[i + 1].round);
    }
  }

  /** Reachable statuses: the deadline clock is set while Reserving, and a failure reason is recorded exactly from
      Failed on. */
  predicate Consistent(s: Status) {
    && (s.phase == Reserving ==> s.firstReserving.Some?)
    && (s.failure.Some? <==> s.phase in {Failed, Released})
  }

  lemma TurnAdvances(spec: Spec, read: Status, s: Status, e: Round)
    requires Fits(spec, e) && Consistent(s) && RecentEnough(read, s, e)
    ensures var s' := NextOver(spec, read, s, e);
            && Consistent(s') && Rank(s'.phase) >= Rank(s.phase)
            && (s.firstReserving.Some? ==> s'.firstReserving == s.firstReserving)
            && (s.failure.Some? ==> s'.failure == s.failure)
  {
    hide Count, TallyOf, Readable, LossSeen, EveryChildGone;
  }

  /** Over every run of recent enough reads the phase rank never falls, and the deadline clock and the first failure
      reason never change once set. */
  lemma {:induction false} RunOnlyAdvances(spec: Spec, s: Status, run: seq<Turn>)
    requires AllFit(spec, run) && Consistent(s) && Recent(spec, s, run)
    ensures var s' := After(spec, s, run);
            && Consistent(s') && Rank(s'.phase) >= Rank(s.phase)
            && (s.firstReserving.Some? ==> s'.firstReserving == s.firstReserving)
            && (s.failure.Some? ==> s'.failure == s.failure)
    decreases |run|
  {
    hide NextOver, Consistent, RecentEnough, Recent;
    if run != [] {
      var s1 := NextOver(spec, run[0].read, s, run[0].round);
      RecentTail(spec, s, run);
      TurnAdvances(spec, run[0].read, s, run[0].round);
      RunOnlyAdvances(spec, s1, run[1..]);
    }
  }

  /** A run that ends Released went through a round that found the reservation Failed and every child claim and slice
      absent. */
  lemma {:induction false} ReleasedSawEveryChildGone(spec: Spec, s: Status, run: seq<Turn>) returns (k: nat)
    requires AllFit(spec, run)
    ensures s.phase != Released && After(spec, s, run).phase == Released ==>
              && k < |run| && EveryChildGone(run[k].round.remaining) && run[k].read.phase == Failed
              && (Recent(spec, s, run) ==> After(spec, s, run[..k]).phase == Failed)
    decreases |run|
  {
    hide EveryChildGone, Readable, TallyOf, Recent;
    if run == [] || s.phase == Released { return 0; }
    var s' := NextOver(spec, run[0].read, s, run[0].round);
    if Recent(spec, s, run) { RecentTail(spec, s, run); }
    if s'.phase == Released {
      k := 0;
      assert After(spec, s, run[..0]) == s;
    } else {
      k := 0;
      hide NextOver;
      if After(spec, s', run[1..]).phase != Released { return; }
      var j := ReleasedSawEveryChildGone(spec, s', run[1..]);
      k := j + 1;
      assert run[..k][0] == run[0] && run[..k][1..] == run[1..][..j];
    }
  }

  /** Committed once, a reservation is afterwards Committed, Failed or Released and nothing else. */
  lemma CommittedNeverDemoted(spec: Spec, s: Status, run: seq<Turn>)
    requires AllFit(spec, run) && Consistent(s) && s.phase == Committed && Recent(spec, s, run)
    ensures After(spec, s, run).phase in {Committed, Failed, Released}
  {
    RunOnlyAdvances(spec, s, run);
  }

  // ----- Why the phase must be current -----

  /** The status write re-reads the object but stores the phase decided on an earlier read. Decided on a read from
      before the gang committed, it puts a committed gang back to Reserving. */
  lemma StaleDecisionDemotes()
    ensures var spec := Spec(1, ["c"], None);
            var stale := Fresh.(phase := Reserving, firstReserving := Some(0));
            var current := stale.(phase := Committed);
            var t := TallyOf(spec.children, [ChildView(Absent, Absent)]);
            var d := DecideNextPhase(spec, stale, t, 1);
            Rank(Applied(current, d.phase, Some(d.reason), t, 1).phase) < Rank(current.phase)
  {
    var spec, views := Spec(1, ["c"], None), [ChildView(Absent, Absent)];
    TallyPartitions(spec.children, views);
    AllHolding(views);
    assert !Holding(views[0]) && !SlotFailed(views[0]) && !Bound(views[0]);
  }

  /** Whatever the tally, a decision taken on `stale` and written over `current` never lowers the phase, exactly when
      the current phase ranks no higher than the one decided on (Reserving for a fresh reservation). */
  lemma StaleWriteExactly(spec: Spec, stale: Status, current: Status)
    requires stale.phase !in {Failed, Released} && spec.gangSize > 0
    ensures (forall t, now :: Rank(DecideNextPhase(spec, stale, t, now).phase) >= Rank(current.phase))
       <==> Rank(current.phase) <= Rank(stale.phase) || Rank(current.phase) <= Rank(Reserving)
  {
    var deadline := if spec.deadline.Some? then spec.deadline.value else DefaultDeadline;
    var now := if stale.firstReserving.Some? then stale.firstReserving.value + deadline else 0;
    var reserved := if stale.phase == Reserved then spec.gangSize else 0;
    var least := DecideNextPhase(spec, stale, Tally(reserved, 0, 0, 0, 0, 0, map[]), now);
    assert Rank(least.phase) == if Rank(stale.phase) == 0 then 1 else Rank(stale.phase);
  }

  /** A teardown that goes on from an old read of Failed puts a Released reservation back to Failed, unless it finds
      every child gone. */
  lemma StaleTeardownExactly(spec: Spec, stale: Status, current: Status, e: Round)
    requires Fits(spec, e) && stale.phase == Failed && Active(stale, e) && e.written
    ensures Rank(NextOver(spec, stale, current, e).phase) >= Rank(current.phase)
       <==> current.phase != Released || EveryChildGone(e.remaining)
  {
    hide TallyOf, Readable, EveryChildGone;
  }
}
