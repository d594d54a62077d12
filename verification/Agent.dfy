/**
 * The node agent's allocation protocol: announce, allocate, save the record, report Ready; and
 * free the ledger, delete the record, report Released. Any step may fail, the agent may crash
 * between any two, and slices change under it. A restart rebuilds the ledger from the records.
 */
module Agents {
  import opened Sums
  import opened Allocators

  datatype Phase = Pending | Scheduled | Allocating | Ready | Preempting | Releasing | Released | Failed

  datatype Slice = Slice(phase: Phase, deleting: bool, bytes: int, allocID: string, device: string, granted: int)

  datatype Record = Record(slice: string, device: string, bytes: int)

  /** Where the single reconcile worker stands. */
  datatype PC =
    | Idle
    | Announced(slice: string)
    | HasRoom(slice: string, id: string)      // ledger entry made
    | Durable(slice: string, id: string)      // record saved
    | Impossible(slice: string)               // no card fits
    | Freed(slice: string, id: string)        // ledger entry gone, record not yet deleted
    | Cleared(slice: string)

  /** Two histories the program does not keep: `released` has every allocation id ever freed, and
      `named` the latest allocation id given to each slice. */
  datatype Agent = Agent(ledger: Ledger, records: map<string, Record>, slices: map<string, Slice>, pc: PC,
                         released: set<string>, named: map<string, string>)

  datatype Step =
    | Announce(slice: string)
    | Allot(devices: seq<Device>, id: string)
    | Save
    | ReportReady
    | ReportFailed
    | BeginRelease(slice: string)
    | Erase
    | ReportReleased
    | Abort                                    // the running step failed; the reconcile returns
    | Crash                                    // and restart
    | Prune(id: string)                        // drift healing: the record's slice no longer exists
    | Create(slice: string, s: Slice)
    | Change(slice: string, s: Slice)          // everyone else's writes to the slice
    | Remove(slice: string)

  predicate InRelease(s: Slice) {
    s.deleting || s.phase.Releasing? || s.phase.Released? || s.phase.Failed?
  }

  predicate Allocatable(s: Slice) {
    !s.deleting && (s.phase.Scheduled? || s.phase.Allocating?)
  }

  /** A slice whose workload may be using its grant: Ready, or Ready and marked for preemption. */
  predicate Holding(s: Slice) {
    !s.deleting && (s.phase.Ready? || s.phase.Preempting?)
  }

  function EntryOf(r: Record): Entry {
    Entry(r.slice, r.device, r.bytes)
  }

  /** The ledger after a restart; by LedgerDetermined the restore order does not matter. */
  function Rebuilt(records: map<string, Record>, order: seq<string>): Ledger {
    if order == [] then EmptyLedger
    else
      var l := Rebuilt(records, order[..|order| - 1]);
      var id := order[|order| - 1];
      if id in records then Restore(l, id, EntryOf(records[id])) else l
  }

  ghost predicate Lists(order: seq<string>, records: map<string, Record>) {
    (forall id :: id in order <==> id in records) && (forall i, j :: 0 <= i < j < |order| ==> order[i] != order[j])
  }

  lemma {:induction false} ListingExists(s: set<string>) returns (order: seq<string>)
    ensures (forall id :: id in order <==> id in s) && (forall i, j :: 0 <= i < j < |order| ==> order[i] != order[j])
    decreases s
  {
    if s == {} {
      order := [];
    } else {
      var x :| x in s;
      order := ListingExists(s - {x});
      order := order + [x];
    }
  }

  ghost function Restarted(records: map<string, Record>): Ledger {
    var order := SomeListing(records);
    Rebuilt(records, order)
  }

  ghost function SomeListing(records: map<string, Record>): (order: seq<string>)
    ensures Lists(order, records)
  {
    assert exists order :: Lists(order, records) by {
      var order := ListingExists(records.Keys);
      assert Lists(order, records);
    }
    var order :| Lists(order, records);
    order
  }

  // ----- What each step does -----

  predicate Enabled(a: Agent, s: Step) {
    match s
    case Announce(u) => a.pc.Idle? && u in a.slices && Allocatable(a.slices[u])
    case Allot(_, _) => a.pc.Announced? && a.pc.slice in a.slices
    case Save => a.pc.HasRoom? && a.pc.id in a.ledger.byAlloc
    case ReportReady =>
      a.pc.Durable? && a.pc.slice in a.slices && a.slices[a.pc.slice].phase.Allocating?
          && !a.slices[a.pc.slice].deleting
                        && a.pc.id in a.ledger.byAlloc
    case ReportFailed =>
      a.pc.Impossible? && a.pc.slice in a.slices && a.slices[a.pc.slice].phase.Allocating?
          && !a.slices[a.pc.slice].deleting
    case BeginRelease(u) => a.pc.Idle? && u in a.slices && (a.slices[u].deleting || a.slices[u].phase.Releasing?)
    case Erase => a.pc.Freed?
    case ReportReleased => a.pc.Cleared? && a.pc.slice in a.slices && !a.slices[a.pc.slice].phase.Preempting?
                           && (a.slices[a.pc.slice].deleting || a.slices[a.pc.slice].phase.Releasing?)
    case Create(u, _) => u !in a.slices
    case Change(u, _) => u in a.slices
    case Remove(u) => u in a.slices
    case Prune(id) => id in a.records && a.records[id].slice !in a.slices
    case Abort => true
    case Crash => true
  }

  ghost function Do(a: Agent, s: Step): Agent
    requires Enabled(a, s)
  {
    match s
    case Announce(u) => a.(slices := a.slices[u := a.slices[u].(phase := Allocating)], pc := Announced(u))
    case Allot(devices, id) =>
      var u := a.pc.slice;
      var (l, r) := Allocate(a.ledger, devices, u, a.slices[u].bytes, id);
      (match r
       case Granted(got, _, _) => a.(ledger := l, pc := HasRoom(u, got), named := a.named[u := got])
       case Fragmented(_, _) => a.(pc := Impossible(u))
       case Refused => a.(pc := Idle))
    case Save =>
      var e := a.ledger.byAlloc[a.pc.id];
      a.(records := a.records[a.pc.id := Record(a.pc.slice, e.device, e.bytes)], pc := Durable(a.pc.slice, a.pc.id))
    case ReportReady =>
      var u, e := a.pc.slice, a.ledger.byAlloc[a.pc.id];
      var s' := a.slices[u].(phase := Ready, allocID := a.pc.id, device := e.device, granted := e.bytes);
      a.(slices := a.slices[u := s'], pc := Idle)
    case ReportFailed => a.(slices := a.slices[a.pc.slice := a.slices[a.pc.slice].(phase := Failed)], pc := Idle)
    case BeginRelease(u) =>
      if a.slices[u].allocID != "" then Free(a, u, a.slices[u].allocID)
      else if u in a.ledger.bySlice then Free(a, u, a.ledger.bySlice[u])
      else a.(pc := Cleared(u))
    case Erase => a.(records := a.records - {a.pc.id}, pc := Cleared(a.pc.slice))
    case ReportReleased =>
      var u := a.pc.slice;
      if a.slices[u].phase.Released? then a.(pc := Idle)
      else
        a.(slices := a.slices[u := a.slices[u].(phase := Released, allocID := "", device := "", granted := 0)],
            pc := Idle)
    case Abort => a.(pc := Idle)
    case Crash => a.(ledger := Restarted(a.records), pc := Idle)
    case Prune(id) => a.(records := a.records - {id})
    case Create(u, sl) => a.(slices := a.slices[u := sl])
    case Change(u, sl) => a.(slices := a.slices[u := sl])
    case Remove(u) => a.(slices := a.slices - {u})
  }

  function Free(a: Agent, u: string, id: string): Agent {
    a.(ledger := Release(a.ledger, id), pc := Freed(u, id), released := a.released + {id})
  }

  // ----- What the rest of the world may do -----

  /** Other writers schedule, preempt, take a preemption mark back, fail or release a slice and may delete it; none of
      them touches the allocation fields, un-deletes, or takes a slice back out of release. */
  predicate PlainChange(s: Slice, s': Slice) {
    && s'.bytes == s.bytes && s'.allocID == s.allocID && s'.device == s.device && s'.granted == s.granted
    && (s.deleting ==> s'.deleting)
    && (s'.phase == s.phase
        || (s.phase.Pending? && s'.phase.Scheduled?)
        || (s.phase.Ready? && s'.phase.Preempting?)
        || (s.phase.Preempting? && s'.phase.Ready?)
        || s'.phase.Releasing?
        || (s'.phase.Failed? && !s.phase.Preempting?))
  }

  /** Allocation ids carry a nanosecond stamp and are never given twice. */
  predicate Fresh(a: Agent, id: string) {
    id != "" && id !in a.ledger.byAlloc && id !in a.records && id !in a.released && id !in a.named.Values
  }

  /** `cap` gives each named card's total minus driver-reserved bytes. */
  predicate DevicesAre(devices: seq<Device>, cap: map<string, int>) {
    forall d :: d in devices ==> d.uuid in cap && d.total - d.reserved == cap[d.uuid]
  }

  predicate Lawful(a: Agent, s: Step, cap: map<string, int>) {
    match s
    case Allot(devices, id) => DevicesAre(devices, cap) && Fresh(a, id)
    case Create(u, sl) => u != "" && u !in a.named && (a.pc.Idle? || a.pc.slice != u)
                          && sl.allocID == "" && (sl.phase.Pending? || sl.phase.Scheduled?)
    case Change(u, sl) => u in a.slices ==> PlainChange(a.slices[u], sl)
    case _ => true
  }

  // ----- The invariant -----

  ghost function LiveWeight(device: string, released: set<string>): (string, Entry) -> int {
    (id: string, e: Entry) => if e.device == device && id !in released then e.bytes else 0
  }

  /** Bytes of a card promised to allocations never freed. */
  ghost function Live(a: Agent, device: string): int {
    SumBy(a.ledger.byAlloc, LiveWeight(device, a.released))
  }

  predicate EntryOk(a: Agent, id: string)
    requires id in a.ledger.byAlloc
  {
    var e := a.ledger.byAlloc[id];
    id != "" && e.slice != "" && e.device != "" && e.slice in a.named && a.named[e.slice] == id
  }

  /** A record not freed since has its ledger entry, and the two agree. */
  predicate RecordOk(a: Agent, id: string)
    requires id in a.records
  {
    var r := a.records[id];
    && id != "" && r.slice != "" && r.device != "" && r.bytes > 0 && r.slice in a.named && a.named[r.slice] == id
    && (id !in a.released ==> id in a.ledger.byAlloc)
    && (id in a.ledger.byAlloc ==> a.ledger.byAlloc[id] == EntryOf(r))
  }

  /** What a slice's status says about its allocation. */
  predicate StatusOk(a: Agent, u: string)
    requires u in a.slices
  {
    var s := a.slices[u];
    && u != ""
    && (Holding(s) ==> s.allocID in a.ledger.byAlloc && s.allocID in a.records && s.allocID !in a.released
                       && a.records[s.allocID] == Record(u, s.device, s.granted))
    && (Allocatable(s) || s.phase.Pending? ==> s.allocID == "")
    && (s.allocID != "" ==> u in a.named && a.named[u] == s.allocID)
    && (u in a.named && a.named[u] in a.released ==> InRelease(s))
  }

  ghost predicate Entries(a: Agent) {
    forall id :: id in a.ledger.byAlloc ==> EntryOk(a, id)
  }

  ghost predicate Records(a: Agent) {
    forall id :: id in a.records ==> RecordOk(a, id)
  }

  ghost predicate Statuses(a: Agent) {
    forall u :: u in a.slices ==> StatusOk(a, u)
  }

  ghost predicate Injective(named: map<string, string>) {
    forall u, v :: u in named && v in named && named[u] == named[v] ==> u == v
  }

  /** Nothing of the slice has been freed, and its status names no allocation yet. */
  predicate Untouched(a: Agent, u: string) {
    && u != ""
    && (u in a.slices ==> a.slices[u].allocID == "" && !a.slices[u].phase.Pending?)
    && (u in a.named ==> a.named[u] !in a.released)
  }

  /** A slice in release whose ledger entry is gone. */
  predicate Leaving(a: Agent, u: string) {
    (u in a.slices ==> InRelease(a.slices[u])) && (u in a.named ==> a.named[u] !in a.ledger.byAlloc)
  }

  predicate PcOk(a: Agent) {
    match a.pc
    case Idle => true
    case Announced(u) => Untouched(a, u)
    case HasRoom(u, id) => Untouched(a, u) && id in a.ledger.byAlloc && a.ledger.byAlloc[id].slice == u
    case Durable(u, id) => Untouched(a, u) && id in a.ledger.byAlloc && a.ledger.byAlloc[id].slice == u
                           && (u in a.slices ==> id in a.records)
    case Impossible(u) => Untouched(a, u)
    case Freed(u, id) => Leaving(a, u) && u in a.named && a.named[u] == id && id in a.released
    case Cleared(u) => Leaving(a, u)
  }

  ghost predicate LiveOk(a: Agent, cap: map<string, int>) {
    forall d :: d in cap ==> Live(a, d) <= cap[d]
  }

  ghost predicate AgentOk(a: Agent, cap: map<string, int>) {
    LedgerOk(a.ledger) && Entries(a) && Records(a) && Statuses(a) && Injective(a.named) && PcOk(a) && LiveOk(a, cap)
  }

  const NewAgent := Agent(EmptyLedger, map[], map[], Idle, {}, map[])

  lemma NewAgentOk(cap: map<string, int>)
    requires forall d :: d in cap ==> cap[d] >= 0
    ensures AgentOk(NewAgent, cap)
  {
    EmptyLedgerOk();
  }

  // ----- Steps that write only slice statuses -----

  predicate StatusStep(s: Step) {
    s.Announce? || s.ReportReady? || s.ReportFailed? || s.ReportReleased? || s.Create? || s.Change? || s.Remove?
        || s.Abort?
  }

  lemma StatusStepKeeps(a: Agent, s: Step, cap: map<string, int>)
    requires AgentOk(a, cap) && Enabled(a, s) && Lawful(a, s, cap) && StatusStep(s)
    ensures AgentOk(Do(a, s), cap)
  {
    hide LedgerOk, LiveOk, Statuses, Entries, Records, Injective;
    var a' := Do(a, s);
    StatusStepStatuses(a, s, cap);
    StatusStepPc(a, s, cap);
    hide PcOk;
    assert a' == a.(slices := a'.slices, pc := a'.pc);
    SameBooks(a, a', cap);
  }

  lemma SameBooks(a: Agent, a': Agent, cap: map<string, int>)
    requires a' == a.(slices := a'.slices, pc := a'.pc) && Entries(a) && Records(a) && LiveOk(a, cap)
    ensures Entries(a') && Records(a') && LiveOk(a', cap)
  {
    forall d | d in cap ensures Live(a', d) <= cap[d] { assert Live(a, d) <= cap[d]; }
    forall id | id in a.records ensures RecordOk(a', id) { assert RecordOk(a, id); }
    forall id | id in a.ledger.byAlloc ensures EntryOk(a', id) { assert EntryOk(a, id); }
  }

  lemma StatusStepStatuses(a: Agent, s: Step, cap: map<string, int>)
    requires AgentOk(a, cap) && Enabled(a, s) && Lawful(a, s, cap) && StatusStep(s)
    ensures Statuses(Do(a, s))
  {
    hide LedgerOk, LiveOk, Injective;
    var a' := Do(a, s);
    forall u | u in a'.slices ensures StatusOk(a', u) {
      if u in a.slices { assert StatusOk(a, u); }
      if s.ReportReady? && u == a.pc.slice { ReadyOk(a, cap); }
    }
  }

  lemma ReadyOk(a: Agent, cap: map<string, int>)
    requires AgentOk(a, cap) && Enabled(a, ReportReady)
    ensures StatusOk(Do(a, ReportReady), a.pc.slice)
  {
    hide LedgerOk, LiveOk, Injective;
    assert EntryOk(a, a.pc.id) && RecordOk(a, a.pc.id) && StatusOk(a, a.pc.slice);
    hide Entries, Records, Statuses;
  }

  lemma StatusStepPc(a: Agent, s: Step, cap: map<string, int>)
    requires AgentOk(a, cap) && Enabled(a, s) && Lawful(a, s, cap) && StatusStep(s)
    ensures PcOk(Do(a, s))
  {
    hide LiveOk, LedgerOk, Injective, Entries, Records;
    match s
    case Announce(u) => assert StatusOk(a, u); hide Statuses;
    case Change(u, sl) => hide Statuses, StatusOk; OtherWritePc(a, s, cap);
    case Create(u, sl) => hide Statuses, StatusOk; OtherWritePc(a, s, cap);
    case Remove(u) => hide Statuses, StatusOk; OtherWritePc(a, s, cap);
    case _ => hide Statuses, PcOk;
  }

  lemma OtherWritePc(a: Agent, s: Step, cap: map<string, int>)
    requires PcOk(a) && Enabled(a, s) && Lawful(a, s, cap) && (s.Change? || s.Create? || s.Remove?)
    ensures PcOk(Do(a, s))
  {
  }

  // ----- Steps that move the ledger or the records -----

  lemma AllotKeeps(a: Agent, devices: seq<Device>, id: string, cap: map<string, int>)
    requires AgentOk(a, cap) && Enabled(a, Allot(devices, id)) && Lawful(a, Allot(devices, id), cap)
    ensures AgentOk(Do(a, Allot(devices, id)), cap)
  {
    hide LiveOk, Entries, Records, Statuses, Injective, Balanced;
    var u := a.pc.slice;
    var b := a.slices[u].bytes;
    var (l, r) := Allocate(a.ledger, devices, u, b, id);
    if u in a.ledger.bySlice || !r.Granted? {
      AllotRepeat(a, devices, id, cap);
    } else {
      BestFitIsTightest(a.ledger, devices, b);
      var e := Entry(u, r.device, b);
      hide LedgerOk;
      PlacedOk(a.ledger, id, e);
      PlacedLive(a, devices, id, e, cap);
      PlacedKeeps(a, id, e, cap);
    }
  }

  lemma AllotRepeat(a: Agent, devices: seq<Device>, id: string, cap: map<string, int>)
    requires AgentOk(a, cap) && Enabled(a, Allot(devices, id))
    ensures a.pc.slice in a.ledger.bySlice
            || !Allocate(a.ledger, devices, a.pc.slice, a.slices[a.pc.slice].bytes, id).1.Granted?
            ==> AgentOk(Do(a, Allot(devices, id)), cap)
  {
    if a.pc.slice !in a.ledger.bySlice
       && Allocate(a.ledger, devices, a.pc.slice, a.slices[a.pc.slice].bytes, id).1.Granted?
    {
      return;
    }
    var a' := Do(a, Allot(devices, id));
    RepeatNamed(a, devices, id);
    hide LedgerOk, LiveOk, Entries, Records, Injective, Allocate;
    SamePcBooks(a, a', cap);
    hide Statuses;
  }

  lemma RepeatNamed(a: Agent, devices: seq<Device>, id: string)
    requires LedgerOk(a.ledger) && Entries(a) && PcOk(a) && Enabled(a, Allot(devices, id))
    requires a.pc.slice in a.ledger.bySlice
        || !Allocate(a.ledger, devices, a.pc.slice, a.slices[a.pc.slice].bytes, id).1.Granted?
    ensures var a' := Do(a, Allot(devices, id)); a' == a.(pc := a'.pc) && PcOk(a')
  {
    hide Balanced;
    var u := a.pc.slice;
    if u in a.ledger.bySlice {
      assert EntryOk(a, a.ledger.bySlice[u]);
      assert a.named[u := a.ledger.bySlice[u]] == a.named;
    }
  }

  lemma SamePcBooks(a: Agent, a': Agent, cap: map<string, int>)
    requires a' == a.(pc := a'.pc) && Entries(a) && Records(a) && LiveOk(a, cap) && Statuses(a)
    ensures Entries(a') && Records(a') && LiveOk(a', cap) && Statuses(a')
  {
    SameBooks(a, a', cap);
    hide Entries, Records, LiveOk;
    forall u | u in a.slices ensures StatusOk(a', u) { assert StatusOk(a, u); }
  }

  /** A card that fits has room below its capacity. */
  lemma PlacedLive(a: Agent, devices: seq<Device>, id: string, e: Entry, cap: map<string, int>)
    requires LedgerOk(a.ledger) && LiveOk(a, cap) && DevicesAre(devices, cap) && id !in a.ledger.byAlloc
    requires id !in a.released && e.bytes > 0
    requires exists d :: d in devices && d.uuid == e.device && Available(a.ledger, d) >= e.bytes
    ensures LiveOk(a.(ledger := Placed(a.ledger, id, e)), cap)
  {
    var dev :| dev in devices && dev.uuid == e.device && Available(a.ledger, dev) >= e.bytes;
    assert Balanced(a.ledger, e.device);
    SumCompare(a.ledger.byAlloc, LiveWeight(e.device, a.released), a.ledger.byAlloc, EntryWeight(e.device));
    hide Balanced;
    forall d | d in cap ensures Live(a.(ledger := Placed(a.ledger, id, e)), d) <= cap[d] {
      SumInsert(a.ledger.byAlloc, LiveWeight(d, a.released), id, e);
      assert Live(a, d) <= cap[d];
    }
  }

  lemma PlacedKeeps(a: Agent, id: string, e: Entry, cap: map<string, int>)
    requires AgentOk(a, cap) && Fresh(a, id) && e.device != ""
    requires a.pc.Announced? && a.pc.slice in a.slices && e.slice == a.pc.slice && e.slice !in a.ledger.bySlice
    requires LedgerOk(Placed(a.ledger, id, e)) && LiveOk(a.(ledger := Placed(a.ledger, id, e)), cap)
    ensures AgentOk(a.(ledger := Placed(a.ledger, id, e), pc := HasRoom(e.slice, id), named := a.named[e.slice := id]),
        cap)
  {
    hide LedgerOk, LiveOk;
    var a' := a.(ledger := Placed(a.ledger, id, e), pc := HasRoom(e.slice, id), named := a.named[e.slice := id]);
    NoTrace(a, e.slice, cap);
    NamedInjective(a.named, e.slice, id);
    LiveSame(a.(ledger := a'.ledger), a', cap);
    PlacedBooks(a, a', id, e);
    PlacedStatuses(a, a', id, e);
    hide Entries, Records, Statuses, Injective;
  }

  lemma PlacedBooks(a: Agent, a': Agent, id: string, e: Entry)
    requires Entries(a) && Records(a) && Fresh(a, id) && e.slice != "" && e.device != ""
    requires forall i :: i in a.ledger.byAlloc ==> a.ledger.byAlloc[i].slice != e.slice
    requires forall i :: i in a.records ==> a.records[i].slice != e.slice
    requires a' == a.(ledger := Placed(a.ledger, id, e), pc := a'.pc, named := a.named[e.slice := id])
    ensures Entries(a') && Records(a')
  {
    forall i | i in a'.ledger.byAlloc ensures EntryOk(a', i) { if i != id { assert EntryOk(a, i); } }
    forall i | i in a'.records ensures RecordOk(a', i) { assert RecordOk(a, i); }
  }

  lemma PlacedStatuses(a: Agent, a': Agent, id: string, e: Entry)
    requires Statuses(a) && Fresh(a, id) && Untouched(a, e.slice)
    requires a' == a.(ledger := Placed(a.ledger, id, e), pc := a'.pc, named := a.named[e.slice := id])
    ensures Statuses(a')
  {
    forall v | v in a'.slices ensures StatusOk(a', v) { assert StatusOk(a, v); }
  }

  lemma NamedInjective(named: map<string, string>, u: string, id: string)
    requires Injective(named) && id !in named.Values
    ensures Injective(named[u := id])
    ensures forall v :: v in named ==> named[v] != id
  {
  }

  lemma LiveSame(a: Agent, a': Agent, cap: map<string, int>)
    requires a'.ledger == a.ledger && a'.released == a.released && LiveOk(a, cap)
    ensures LiveOk(a', cap)
  {
    forall d | d in cap ensures Live(a', d) <= cap[d] { assert Live(a, d) <= cap[d]; }
  }

  /** A slice being allotted that is not in the ledger is not in the records either. */
  lemma NoTrace(a: Agent, u: string, cap: map<string, int>)
    requires LedgerOk(a.ledger) && Records(a) && Entries(a) && Untouched(a, u) && u !in a.ledger.bySlice
    ensures forall i :: i in a.ledger.byAlloc ==> a.ledger.byAlloc[i].slice != u
    ensures forall i :: i in a.records ==> a.records[i].slice != u
  {
    hide Balanced;
    forall i | i in a.records ensures a.records[i].slice != u { assert RecordOk(a, i); }
  }

  lemma SaveKeeps(a: Agent, cap: map<string, int>)
    requires AgentOk(a, cap) && Enabled(a, Save)
    ensures AgentOk(Do(a, Save), cap)
  {
    var a' := Do(a, Save);
    EntryBytes(a.ledger, a.pc.id);
    hide LedgerOk, LiveOk, Injective;
    LiveSame(a, a', cap);
    assert EntryOk(a, a.pc.id);
    assert Entries(a') by {
      forall i | i in a'.ledger.byAlloc ensures EntryOk(a', i) { assert EntryOk(a, i); }
    }
    assert Records(a') by {
      forall i | i in a'.records ensures RecordOk(a', i) { if i != a.pc.id { assert RecordOk(a, i); } }
    }
    assert Statuses(a') by {
      forall v | v in a'.slices ensures StatusOk(a', v) {
        assert StatusOk(a, v);
        if a.pc.id in a.records { assert RecordOk(a, a.pc.id); }
      }
    }
    hide Entries, Records, Statuses;
  }

  lemma EntryBytes(l: Ledger, id: string)
    requires LedgerOk(l) && id in l.byAlloc
    ensures l.byAlloc[id].bytes > 0
  {
    hide Balanced;
  }

  lemma FreeKeeps(a: Agent, u: string, id: string, cap: map<string, int>)
    requires AgentOk(a, cap) && u in a.slices && InRelease(a.slices[u])
    requires u in a.named && a.named[u] == id
    ensures AgentOk(Free(a, u, id), cap)
  {
    ReleaseKeepsOk(a.ledger, id);
    FreeLive(a, u, id, cap);
    hide LedgerOk, LiveOk;
    var a' := Free(a, u, id);
    assert Entries(a') by {
      forall i | i in a'.ledger.byAlloc ensures EntryOk(a', i) { assert EntryOk(a, i); }
    }
    assert Records(a') by {
      forall i | i in a'.records ensures RecordOk(a', i) { assert RecordOk(a, i); }
    }
    assert Statuses(a') by {
      forall v | v in a'.slices ensures StatusOk(a', v) { assert StatusOk(a, v); }
    }
    hide Entries, Records, Statuses, Injective;
  }

  lemma FreeLive(a: Agent, u: string, id: string, cap: map<string, int>)
    requires LiveOk(a, cap) && LedgerOk(a.ledger)
    ensures LiveOk(Free(a, u, id), cap)
  {
    hide Balanced;
    var a' := Free(a, u, id);
    forall d | d in cap ensures Live(a', d) <= cap[d] {
      SumCompare(a'.ledger.byAlloc, LiveWeight(d, a'.released), a.ledger.byAlloc, LiveWeight(d, a.released));
      assert Live(a, d) <= cap[d];
    }
  }

  lemma ForgetRecordKeeps(a: Agent, id: string, pc: PC, cap: map<string, int>)
    requires AgentOk(a, cap) && (id in a.released || (id in a.records && a.records[id].slice !in a.slices))
    requires pc == a.pc || (a.pc.Freed? && a.pc.id == id && pc == Cleared(a.pc.slice))
    ensures AgentOk(a.(records := a.records - {id}, pc := pc), cap)
  {
    var a' := a.(records := a.records - {id}, pc := pc);
    ForgetRecordPc(a, id, pc, cap);
    hide LedgerOk, LiveOk, Injective;
    LiveSame(a, a', cap);
    assert Entries(a') by {
      forall i | i in a'.ledger.byAlloc ensures EntryOk(a', i) { assert EntryOk(a, i); }
    }
    assert Records(a') by {
      forall i | i in a'.records ensures RecordOk(a', i) { assert RecordOk(a, i); }
    }
    assert Statuses(a') by {
      forall v | v in a'.slices ensures StatusOk(a', v) { assert StatusOk(a, v); }
    }
    hide Entries, Records, Statuses, PcOk;
  }

  lemma ForgetRecordPc(a: Agent, id: string, pc: PC, cap: map<string, int>)
    requires AgentOk(a, cap) && (id in a.released || (id in a.records && a.records[id].slice !in a.slices))
    requires pc == a.pc || (a.pc.Freed? && a.pc.id == id && pc == Cleared(a.pc.slice))
    ensures PcOk(a.(records := a.records - {id}, pc := pc))
  {
    hide LedgerOk, LiveOk, Statuses, Injective;
    if a.pc.Durable? && a.pc.id == id {
      assert EntryOk(a, id);
      if id in a.records { assert RecordOk(a, id); }
    }
    hide Entries, Records;
  }

  // ----- Restart -----

  predicate WellFormed(records: map<string, Record>) {
    forall id :: id in records ==>
        id != "" && records[id].slice != "" && records[id].device != "" && records[id].bytes > 0
  }

  predicate OnePerSlice(records: map<string, Record>) {
    forall i, j :: i in records && j in records && records[i].slice == records[j].slice ==> i == j
  }

  /** The ledger holds exactly these records. */
  ghost predicate HoldsOnly(l: Ledger, records: map<string, Record>, ids: seq<string>) {
    && (forall id :: id in l.byAlloc <==> id in ids)
    && (forall id :: id in ids ==> id in records && id in l.byAlloc && l.byAlloc[id] == EntryOf(records[id]))
  }

  /** Restoring one record per slice yields an exact ledger holding exactly the records. */
  lemma {:induction false} RebuiltExact(records: map<string, Record>, order: seq<string>)
    requires WellFormed(records) && OnePerSlice(records)
    requires (forall id :: id in order ==> id in records)
    requires (forall i, j :: 0 <= i < j < |order| ==> order[i] != order[j])
    ensures LedgerOk(Rebuilt(records, order)) && HoldsOnly(Rebuilt(records, order), records, order)
    decreases |order|
  {
    hide LedgerOk, WellFormed, OnePerSlice, HoldsOnly;
    if order == [] {
      EmptyLedgerOk();
      NothingHeld(records);
    } else {
      var rest, id := order[..|order| - 1], order[|order| - 1];
      RebuiltLast(records, order);
      hide Rebuilt;
      RebuiltExact(records, rest);
      assert order == rest + [id];
      RestoreOne(records, rest, id, Rebuilt(records, rest));
    }
  }

  lemma NothingHeld(records: map<string, Record>)
    ensures HoldsOnly(EmptyLedger, records, [])
  {
  }

  lemma RebuiltLast(records: map<string, Record>, order: seq<string>)
    requires order != [] && order[|order| - 1] in records
    ensures var id := order[|order| - 1];
        Rebuilt(records, order) == Restore(Rebuilt(records, order[..|order| - 1]), id, EntryOf(records[id]))
  {
  }

  lemma RestoreOne(records: map<string, Record>, rest: seq<string>, id: string, l: Ledger)
    requires WellFormed(records) && OnePerSlice(records) && LedgerOk(l) && HoldsOnly(l, records, rest) && id in records
    requires id !in rest
    ensures var l' := Restore(l, id, EntryOf(records[id])); LedgerOk(l') && HoldsOnly(l', records, rest + [id])
  {
    hide Balanced;
    assert forall s :: s in l.bySlice ==> records[l.bySlice[s]].slice == s;
    RestoreExact(l, id, EntryOf(records[id]));
    hide LedgerOk;
  }

  lemma RestartedExact(a: Agent)
    requires Records(a)
    ensures LedgerOk(Restarted(a.records))
    ensures Restarted(a.records).byAlloc.Keys == a.records.Keys
    ensures forall id :: id in a.records ==> Restarted(a.records).byAlloc[id] == EntryOf(a.records[id])
  {
    hide LedgerOk;
    assert forall id :: id in a.records ==> RecordOk(a, id);
    hide Rebuilt;
    RebuiltExact(a.records, SomeListing(a.records));
  }

  lemma CrashKeeps(a: Agent, cap: map<string, int>)
    requires AgentOk(a, cap)
    ensures AgentOk(Do(a, Crash), cap)
  {
    RestartedExact(a);
    CrashLive(a, cap);
    hide LedgerOk, LiveOk, Restarted, Injective;
    var a' := Do(a, Crash);
    assert Entries(a') by {
      forall i | i in a'.ledger.byAlloc ensures EntryOk(a', i) { assert RecordOk(a, i); }
    }
    assert Records(a') by {
      forall i | i in a'.records ensures RecordOk(a', i) { assert RecordOk(a, i); }
    }
    assert Statuses(a') by {
      forall v | v in a'.slices ensures StatusOk(a', v) { assert StatusOk(a, v); }
    }
    hide Entries, Records, Statuses, PcOk;
  }

  lemma CrashLive(a: Agent, cap: map<string, int>)
    requires LiveOk(a, cap) && Records(a) && LedgerOk(a.ledger)
    ensures LiveOk(a.(ledger := Restarted(a.records), pc := Idle), cap)
  {
    RestartedExact(a);
    hide Balanced, Restarted;
    var l := Restarted(a.records);
    assert forall id :: id in a.records ==> RecordOk(a, id);
    forall d | d in cap ensures Live(a.(ledger := l, pc := Idle), d) <= cap[d] {
      var w := LiveWeight(d, a.released);
      SumDropZeros(l.byAlloc, w, a.released);
      SumCompare(l.byAlloc - a.released, w, a.ledger.byAlloc, w);
      assert Live(a, d) <= cap[d];
    }
  }

  // ----- Every step -----

  lemma ReleaseKeeps(a: Agent, u: string, cap: map<string, int>)
    requires AgentOk(a, cap) && Enabled(a, BeginRelease(u))
    ensures AgentOk(Do(a, BeginRelease(u)), cap)
  {
    hide LiveOk, Records, Injective, Balanced, PcOk;
    assert StatusOk(a, u);
    if a.slices[u].allocID != "" {
      hide LedgerOk, Entries, Statuses;
      FreeKeeps(a, u, a.slices[u].allocID, cap);
    } else if u in a.ledger.bySlice {
      assert EntryOk(a, a.ledger.bySlice[u]);
      hide LedgerOk, Entries, Statuses;
      FreeKeeps(a, u, a.ledger.bySlice[u], cap);
    } else {
      NothingToFree(a, u, cap);
    }
  }

  lemma NothingToFree(a: Agent, u: string, cap: map<string, int>)
    requires AgentOk(a, cap) && u in a.slices && InRelease(a.slices[u]) && u !in a.ledger.bySlice
    ensures AgentOk(a.(pc := Cleared(u)), cap)
  {
    NotInLedger(a, u);
    hide LedgerOk, LiveOk, Entries, Records, Injective, Statuses;
    SamePcBooks(a, a.(pc := Cleared(u)), cap);
  }

  lemma NotInLedger(a: Agent, u: string)
    requires LedgerOk(a.ledger) && Entries(a) && Injective(a.named) && u !in a.ledger.bySlice
    ensures u in a.named ==> a.named[u] !in a.ledger.byAlloc
  {
    hide Balanced;
    assert u in a.named && a.named[u] in a.ledger.byAlloc ==> EntryOk(a, a.named[u]);
  }

  lemma EraseKeeps(a: Agent, cap: map<string, int>)
    requires AgentOk(a, cap) && a.pc.Freed?
    ensures AgentOk(Do(a, Erase), cap)
  {
    hide LedgerOk, LiveOk, Entries, Records, Injective, Statuses;
    ForgetRecordKeeps(a, a.pc.id, Cleared(a.pc.slice), cap);
  }

  /** The invariant is kept by every step of the agent, every failure, every crash and everyone else's writes. */
  lemma StepKeeps(a: Agent, s: Step, cap: map<string, int>)
    requires AgentOk(a, cap) && Enabled(a, s) && Lawful(a, s, cap)
    ensures AgentOk(Do(a, s), cap)
  {
    hide AgentOk;
    match s
    case Allot(devices, id) => AllotKeeps(a, devices, id, cap);
    case Save => SaveKeeps(a, cap);
    case BeginRelease(u) => ReleaseKeeps(a, u, cap);
    case Erase => EraseKeeps(a, cap);
    case Crash => CrashKeeps(a, cap);
    case Prune(id) => ForgetRecordKeeps(a, id, a.pc, cap);
    case _ => StatusStepKeeps(a, s, cap);
  }

  // ----- Main results -----

  ghost function HoldWeight(device: string): (string, Slice) -> int {
    (u: string, s: Slice) => if Holding(s) && s.device == device then s.granted else 0
  }

  /** Bytes of a card that slices may be using. */
  ghost function Held(a: Agent, device: string): int {
    SumBy(a.slices, HoldWeight(device))
  }

  /** Slices that may be using a card never hold more than the card's total minus driver-reserved bytes, and
      each has its own ledger entry and record, equal to what its status reports. */
  lemma CardsNeverOversold(a: Agent, cap: map<string, int>)
    requires AgentOk(a, cap)
    ensures forall d :: d in cap ==> Held(a, d) <= cap[d]
    ensures forall u :: u in a.slices && Holding(a.slices[u]) ==>
      var s := a.slices[u];
      s.allocID in a.ledger.byAlloc && a.ledger.byAlloc[s.allocID] == Entry(u, s.device, s.granted)
      && s.allocID in a.records && a.records[s.allocID] == Record(u, s.device, s.granted)
      && u in a.ledger.bySlice && a.ledger.bySlice[u] == s.allocID
  {
    hide PcOk, Entries, Balanced;
    forall u | u in a.slices && Holding(a.slices[u])
      ensures a.slices[u].allocID in a.ledger.byAlloc && a.slices[u].allocID in a.records
      ensures a.ledger.byAlloc[a.slices[u].allocID] == Entry(u, a.slices[u].device, a.slices[u].granted)
    {
      assert StatusOk(a, u);
      assert RecordOk(a, a.slices[u].allocID);
    }
    forall d | d in cap ensures Held(a, d) <= cap[d] {
      HeldIsLive(a, d);
      assert Live(a, d) <= cap[d];
    }
  }

  lemma HeldIsLive(a: Agent, d: string)
    requires LedgerOk(a.ledger) && Records(a) && Statuses(a)
    ensures Held(a, d) <= Live(a, d)
  {
    hide Balanced;
    var idle := set u | u in a.slices && !Holding(a.slices[u]);
    var name := map u | u in a.slices :: a.slices[u].allocID;
    SumDropZeros(a.slices, HoldWeight(d), idle);
    var holding := a.slices - idle;
    forall u | u in holding
      ensures name[u] in a.ledger.byAlloc
      ensures HoldWeight(d)(u, holding[u]) <= LiveWeight(d, a.released)(name[u], a.ledger.byAlloc[name[u]])
      ensures a.ledger.byAlloc[name[u]].slice == u
    {
      assert StatusOk(a, u);
      assert RecordOk(a, name[u]);
    }
    SumInjection(holding, HoldWeight(d), a.ledger.byAlloc, LiveWeight(d, a.released), name);
  }

  ghost function DoAll(a: Agent, run: seq<Step>): Agent
    requires EnabledRun(a, run)
    decreases |run|
  {
    if run == [] then a else DoAll(Do(a, run[0]), run[1..])
  }

  ghost predicate EnabledRun(a: Agent, run: seq<Step>)
    decreases |run|
  {
    run == [] || (Enabled(a, run[0]) && EnabledRun(Do(a, run[0]), run[1..]))
  }

  ghost predicate LawfulRun(a: Agent, run: seq<Step>, cap: map<string, int>)
    requires EnabledRun(a, run)
    decreases |run|
  {
    run == [] || (Lawful(a, run[0], cap) && LawfulRun(Do(a, run[0]), run[1..], cap))
  }

  /** Over every run, with failures and crashes between any two steps, no card is ever oversold. */
  lemma {:induction false} RunNeverOversells(a: Agent, run: seq<Step>, cap: map<string, int>)
    requires AgentOk(a, cap) && EnabledRun(a, run) && LawfulRun(a, run, cap)
    ensures AgentOk(DoAll(a, run), cap) && forall d :: d in cap ==> Held(DoAll(a, run), d) <= cap[d]
    decreases |run|
  {
    hide AgentOk;
    if run == [] {
      CardsNeverOversold(a, cap);
    } else {
      StepKeeps(a, run[0], cap);
      RunNeverOversells(Do(a, run[0]), run[1..], cap);
      hide Do, Enabled, Lawful;
    }
  }

  /** Some trace of the slice is left in the ledger, its index, or the records. */
  ghost predicate Residue(a: Agent, u: string) {
    u in a.ledger.bySlice || (exists id :: id in a.ledger.byAlloc && a.ledger.byAlloc[id].slice == u)
    || exists id :: id in a.records && a.records[id].slice == u
  }

  /** The release sequence up to the point where the agent reports Released. */
  ghost function Teardown(a: Agent, u: string): Agent
    requires Enabled(a, BeginRelease(u))
  {
    var a1 := Do(a, BeginRelease(u));
    if a1.pc.Freed? then Do(a1, Erase) else a1
  }

  /** With nothing to free, the teardown changes nothing. */
  lemma TeardownUntracked(a: Agent, u: string, cap: map<string, int>)
    requires AgentOk(a, cap) && Enabled(a, BeginRelease(u)) && a.slices[u].allocID == "" && u !in a.ledger.bySlice
    ensures Teardown(a, u) == a.(pc := Cleared(u))
    ensures Residue(Teardown(a, u), u) <==> exists id :: id in a.records && a.records[id].slice == u
  {
    hide LiveOk, PcOk, Balanced, Statuses, Records;
    assert forall id :: id in a.ledger.byAlloc ==> EntryOk(a, id);
    hide Entries;
  }

  /** A freed allocation takes its slice's only entry, index and record with it. */
  lemma TeardownTracked(a: Agent, u: string, cap: map<string, int>)
    requires AgentOk(a, cap) && Enabled(a, BeginRelease(u)) && (a.slices[u].allocID != "" || u in a.ledger.bySlice)
    ensures Teardown(a, u).pc == Cleared(u) && !Residue(Teardown(a, u), u)
  {
    hide LiveOk, PcOk, Balanced;
    assert StatusOk(a, u);
    assert forall id :: id in a.records ==> RecordOk(a, id);
    assert forall id :: id in a.ledger.byAlloc ==> EntryOk(a, id);
    assert u in a.ledger.bySlice ==> EntryOk(a, a.ledger.bySlice[u]);
    hide Statuses, Records, Entries;
    var t := Teardown(a, u);
    TornDown(a, u);
    hide Teardown, Enabled;
    assert forall id :: id in t.records ==> t.records[id].slice != u;
  }

  /** The teardown of a tracked slice frees and erases the one allocation the status, or else the ledger, names. */
  lemma TornDown(a: Agent, u: string)
    requires Enabled(a, BeginRelease(u)) && (a.slices[u].allocID != "" || u in a.ledger.bySlice)
    ensures var id := if a.slices[u].allocID != "" then a.slices[u].allocID else a.ledger.bySlice[u];
            var t := Teardown(a, u);
            t.pc == Cleared(u) && t.ledger == Release(a.ledger, id) && t.records == a.records - {id}
  {
    hide Release;
  }

  /** A teardown that runs to the end leaves a trace behind in exactly one case: the status names no allocation,
      the ledger has already forgotten the slice, and a record of it is still on disk. */
  lemma TeardownIsCleanExactly(a: Agent, u: string, cap: map<string, int>)
    requires AgentOk(a, cap) && Enabled(a, BeginRelease(u))
    ensures Teardown(a, u).pc == Cleared(u)
    ensures !Residue(Teardown(a, u), u)
        <==> (|| a.slices[u].allocID != "" || u in a.ledger.bySlice
              || forall id :: id in a.records ==> a.records[id].slice != u)
  {
    if a.slices[u].allocID == "" && u !in a.ledger.bySlice {
      TeardownUntracked(a, u, cap);
    } else {
      TeardownTracked(a, u, cap);
    }
    hide AgentOk, Teardown, Residue;
  }

  // ----- Releases with other writers in between -----

  /** The teardown will leave nothing: its slice is tracked, or no record of it is left. */
  predicate CleanStart(a: Agent, u: string)
    requires u in a.slices
  {
    a.slices[u].allocID != "" || u in a.ledger.bySlice || forall id :: id in a.records ==> a.records[id].slice != u
  }

  predicate Uninterrupted(run: seq<Step>) {
    forall i :: 0 <= i < |run| ==> !run[i].Abort? && !run[i].Crash? && !run[i].ReportReleased?
  }

  /** A teardown under way: a tracked slice loses its record with the erase, an untracked one keeps what it had. */
  ghost predicate Tearing(a: Agent, u: string, clean: bool) {
    && a.pc in {Freed(u, if u in a.named then a.named[u] else ""), Cleared(u)}
    && (a.pc.Freed? ==> clean)
    && (a.pc.Cleared? && clean ==> forall id :: id in a.records ==> a.records[id].slice != u)
    && (a.pc.Cleared? && !clean && u in a.slices ==> exists id :: id in a.records && a.records[id].slice == u)
  }

  lemma TearingBegins(a: Agent, u: string, cap: map<string, int>)
    requires AgentOk(a, cap) && Enabled(a, BeginRelease(u))
    ensures Tearing(Do(a, BeginRelease(u)), u, CleanStart(a, u))
  {
    ReleaseKeeps(a, u, cap);
    hide LedgerOk, LiveOk, Records, Statuses, Entries, Injective, Leaving;
  }

  lemma TearingGoesOn(a: Agent, s: Step, u: string, clean: bool, cap: map<string, int>)
    requires AgentOk(a, cap) && Tearing(a, u, clean) && Enabled(a, s) && Lawful(a, s, cap) && Uninterrupted([s])
    ensures Tearing(Do(a, s), u, clean)
  {
    hide LedgerOk, LiveOk, Statuses, Entries, Injective;
    assert [s][0] == s;
    assert forall id :: id in a.records ==> RecordOk(a, id);
    hide Records;
    var a' := Do(a, s);
    if a'.pc.Cleared? && !clean && u in a'.slices {
      assert u in a.slices;
      var id :| id in a.records && a.records[id].slice == u;
      assert id in a'.records;
    }
  }

  lemma {:induction false} TearingRun(a: Agent, run: seq<Step>, u: string, clean: bool, cap: map<string, int>)
    requires AgentOk(a, cap) && Tearing(a, u, clean) && EnabledRun(a, run) && LawfulRun(a, run, cap)
    requires Uninterrupted(run)
    ensures AgentOk(DoAll(a, run), cap) && Tearing(DoAll(a, run), u, clean)
    decreases |run|
  {
    hide AgentOk, Tearing;
    if run != [] {
      StepKeeps(a, run[0], cap);
      TearingGoesOn(a, run[0], u, clean, cap);
      TearingRun(Do(a, run[0]), run[1..], u, clean, cap);
      hide Do, Enabled, Lawful;
    }
  }

  /** Whatever other writers do between the steps of a release, when it reports Released a trace of the slice is left in
      exactly the same case: no allocation in the status or the ledger, and a record on disk, when the release began. */
  lemma ReleasedIsCleanExactly(a: Agent, u: string, run: seq<Step>, cap: map<string, int>)
    requires AgentOk(a, cap) && Enabled(a, BeginRelease(u))
    requires var b := Do(a, BeginRelease(u)); EnabledRun(b, run) && LawfulRun(b, run, cap) && Uninterrupted(run)
    requires Enabled(DoAll(Do(a, BeginRelease(u)), run), ReportReleased)
    ensures !Residue(Do(DoAll(Do(a, BeginRelease(u)), run), ReportReleased), u) <==> CleanStart(a, u)
  {
    var b := Do(a, BeginRelease(u));
    StepKeeps(a, BeginRelease(u), cap);
    TearingBegins(a, u, cap);
    TearingRun(b, run, u, CleanStart(a, u), cap);
    hide AgentOk, CleanStart;
    ReportedResidue(DoAll(b, run), u, cap);
    hide Residue, DoAll;
  }

  lemma ReportedResidue(a: Agent, u: string, cap: map<string, int>)
    requires AgentOk(a, cap) && a.pc == Cleared(u)
    requires Enabled(a, ReportReleased)
    ensures Residue(Do(a, ReportReleased), u) <==> exists id :: id in a.records && a.records[id].slice == u
  {
    hide LiveOk, Balanced, Statuses, Records;
    assert forall id :: id in a.ledger.byAlloc ==> EntryOk(a, id);
    hide Entries;
  }

  /** It happens whenever the erase of an untracked allocation fails and the reconcile is retried:
      the retry goes straight to reporting Released, with the record still on disk. */
  lemma FailedEraseLeaksOnRetry(a: Agent, u: string, id: string, cap: map<string, int>)
    requires AgentOk(a, cap) && a.pc == Freed(u, id) && id in a.records && a.records[id].slice == u
    requires u in a.slices && a.slices[u].allocID == "" && a.slices[u].deleting && !a.slices[u].phase.Preempting?
    ensures var retry := Do(Do(a, Abort), BeginRelease(u));
            && retry == a.(pc := Cleared(u)) && Enabled(retry, ReportReleased)
            && Do(retry, ReportReleased).slices[u].phase.Released? && Do(retry, ReportReleased).records == a.records
  {
    GoneFromIndex(a, u, cap);
    hide AgentOk;
  }

  // One slice on one card: allocated and recorded, its status never written, deleted, and its erase fails.
  const OneCard := map["gpu" := 10]
  const Gpu := [Device("gpu", 10, 0)]
  const Fits := Slice(Scheduled, false, 10, "", "", 0)
  const Busy := Fits.(phase := Allocating)
  const Doomed := Busy.(deleting := true)
  const Given := map["u" := "id"]
  const Charged := Ledger(map["gpu" := 10], map["id" := Entry("u", "gpu", 10)], map["u" := "id"])
  const OnDisk := map["id" := Record("u", "gpu", 10)]
  const Created := Agent(EmptyLedger, map[], map["u" := Fits], Idle, {}, map[])
  const Told := Agent(EmptyLedger, map[], map["u" := Busy], Announced("u"), {}, map[])
  const Roomy := Agent(Charged, map[], map["u" := Busy], HasRoom("u", "id"), {}, Given)
  const Saved := Agent(Charged, OnDisk, map["u" := Busy], Durable("u", "id"), {}, Given)
  const Wedged := Saved.(pc := Idle)
  const Dying := Wedged.(slices := map["u" := Doomed])
  const EraseFailed := Agent(EmptyLedger, OnDisk, map["u" := Doomed], Freed("u", "id"), {"id"}, Given)
  const Retried := EraseFailed.(pc := Cleared("u"))
  const Leaked := EraseFailed.(slices := map["u" := Doomed.(phase := Released)], pc := Idle)

  lemma AllotsTheCard()
    ensures Enabled(Told, Allot(Gpu, "id")) && Lawful(Told, Allot(Gpu, "id"), OneCard)
    ensures Do(Told, Allot(Gpu, "id")) == Roomy
  {
    var d := Device("gpu", 10, 0);
    assert Gpu == [d] && [d][..0] == [];
    assert BestFit(EmptyLedger, [], 10) == ("", -1);
    assert BestFit(EmptyLedger, [d], 10) == ("gpu", 10);
    hide BestFit;
  }

  lemma Wedges()
    ensures Enabled(NewAgent, Create("u", Fits)) && Lawful(NewAgent, Create("u", Fits), OneCard)
    ensures Do(NewAgent, Create("u", Fits)) == Created
    ensures Enabled(Created, Announce("u")) && Lawful(Created, Announce("u"), OneCard)
    ensures Do(Created, Announce("u")) == Told
    ensures Enabled(Roomy, Save) && Lawful(Roomy, Save, OneCard) && Do(Roomy, Save) == Saved
    ensures Enabled(Saved, Abort) && Lawful(Saved, Abort, OneCard) && Do(Saved, Abort) == Wedged
  {
    hide Allocate, Release, Restarted;
  }

  lemma Leaks()
    ensures Enabled(Wedged, Change("u", Doomed)) && Lawful(Wedged, Change("u", Doomed), OneCard)
    ensures Do(Wedged, Change("u", Doomed)) == Dying
    ensures Enabled(Dying, BeginRelease("u")) && Do(Dying, BeginRelease("u")) == EraseFailed
    ensures Enabled(EraseFailed, Abort) && Do(EraseFailed, Abort) == EraseFailed.(pc := Idle)
    ensures Enabled(EraseFailed.(pc := Idle), BeginRelease("u"))
    ensures Do(EraseFailed.(pc := Idle), BeginRelease("u")) == Retried
    ensures Enabled(Retried, ReportReleased) && Do(Retried, ReportReleased) == Leaked
  {
    hide Allocate, Restarted;
    assert Release(Charged, "id") == EmptyLedger;
  }

  lemma StepOn(a: Agent, s: Step, rest: seq<Step>, cap: map<string, int>)
    requires Enabled(a, s) && Lawful(a, s, cap) && EnabledRun(Do(a, s), rest) && LawfulRun(Do(a, s), rest, cap)
    ensures EnabledRun(a, [s] + rest) && LawfulRun(a, [s] + rest, cap) && DoAll(a, [s] + rest) == DoAll(Do(a, s), rest)
  {
    assert ([s] + rest)[1..] == rest;
    hide Do, Enabled, Lawful;
  }

  const LeakRun := [BeginRelease("u")] + ([Abort] + ([BeginRelease("u")] + ([ReportReleased] + [])))
  const WedgeRun :=
    [Create("u", Fits)]
    + ([Announce("u")] + ([Allot(Gpu, "id")] + ([Save] + ([Abort] + ([Change("u", Doomed)] + LeakRun)))))

  lemma LeakRunLeaks()
    ensures EnabledRun(Dying, LeakRun) && LawfulRun(Dying, LeakRun, OneCard) && DoAll(Dying, LeakRun) == Leaked
  {
    Leaks();
    assert EnabledRun(Leaked, []) && LawfulRun(Leaked, [], OneCard) && DoAll(Leaked, []) == Leaked;
    hide Do, Enabled, EnabledRun, LawfulRun, DoAll;
    StepOn(Retried, ReportReleased, [], OneCard);
    StepOn(EraseFailed.(pc := Idle), BeginRelease("u"), [ReportReleased] + [], OneCard);
    StepOn(EraseFailed, Abort, [BeginRelease("u")] + ([ReportReleased] + []), OneCard);
    StepOn(Dying, BeginRelease("u"), [Abort] + ([BeginRelease("u")] + ([ReportReleased] + [])), OneCard);
  }

  /** From a new agent: the wedge, the deletion, a release whose erase fails, and a retry that reports Released while
      the record stays. */
  lemma LeakIsReachable()
    ensures EnabledRun(NewAgent, WedgeRun) && LawfulRun(NewAgent, WedgeRun, OneCard)
    ensures DoAll(NewAgent, WedgeRun) == Leaked
    ensures Leaked.slices["u"].phase.Released? && Residue(Leaked, "u")
  {
    Wedges();
    AllotsTheCard();
    Leaks();
    LeakRunLeaks();
    assert OnDisk["id"].slice == "u";
    hide Do, Enabled, Lawful, EnabledRun, LawfulRun, DoAll;
    var r6 := [Change("u", Doomed)] + LeakRun;
    var r5 := [Abort] + r6;
    var r4 := [Save] + r5;
    var r3 := [Allot(Gpu, "id")] + r4;
    StepOn(Wedged, Change("u", Doomed), LeakRun, OneCard);
    StepOn(Saved, Abort, r6, OneCard);
    StepOn(Roomy, Save, r5, OneCard);
    StepOn(Told, Allot(Gpu, "id"), r4, OneCard);
    StepOn(Created, Announce("u"), r3, OneCard);
    StepOn(NewAgent, Create("u", Fits), [Announce("u")] + r3, OneCard);
  }

  /** And a restart charges the card again for every record left, whatever became of its slice. */
  lemma RestartChargesEveryRecord(a: Agent, cap: map<string, int>)
    requires AgentOk(a, cap)
    ensures var a' := Do(a, Crash);
            forall id :: id in a.records ==> id in a'.ledger.byAlloc && a'.ledger.byAlloc[id] == EntryOf(a.records[id])
                                             && Committed(a'.ledger, a.records[id].device) >= a.records[id].bytes
  {
    RestartedExact(a);
    var l := Restarted(a.records);
    assert Do(a, Crash).ledger == l;
    hide Restarted, AgentOk, Do, LedgerOk, Committed;
    forall id | id in a.records ensures Committed(l, a.records[id].device) >= a.records[id].bytes {
      EntryIsCommitted(l, id);
    }
  }

  lemma EntryIsCommitted(l: Ledger, id: string)
    requires LedgerOk(l) && id in l.byAlloc
    ensures Committed(l, l.byAlloc[id].device) >= l.byAlloc[id].bytes
  {
    assert Balanced(l, l.byAlloc[id].device);
    SumAtLeast(l.byAlloc, EntryWeight(l.byAlloc[id].device), id);
  }

  lemma GoneFromIndex(a: Agent, u: string, cap: map<string, int>)
    requires AgentOk(a, cap) && a.pc.Freed? && a.pc.slice == u
    ensures u !in a.ledger.bySlice
  {
    hide LiveOk, Statuses, Balanced, Records;
    assert u in a.ledger.bySlice ==> EntryOk(a, a.ledger.bySlice[u]);
  }
}
