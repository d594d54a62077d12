/** The checkpoint store and the manager that drives allocator, store and slice status in order. */
module AgentManagers {
  import opened Allocators
  import opened AllocatorClass
  import opened Agents

  /** The checkpoint file: absent, unparseable, or a table of records. Writes replace it atomically. */
  datatype File = Missing | Unparseable | Table(records: map<string, Record>)

  function TableOf(f: File): map<string, Record> {
    if f.Table? then f.records else map[]
  }

  class Store {
    var file: File

    constructor (file: File)
      ensures this.file == file
    {
      this.file := file;
    }

    method LoadAll() returns (ok: bool, records: map<string, Record>)
      ensures ok == !file.Unparseable? && (ok ==> records == TableOf(file))
    {
      match file {
        case Missing => return true, map[];
        case Unparseable => return false, map[];
        case Table(t) => return true, t;
      }
    }

    /** Refuses to overwrite a file it cannot parse; a failed write leaves the old file. */
    method Save(id: string, r: Record, writeOk: bool) returns (ok: bool)
      modifies this
      ensures ok == (writeOk && !old(file).Unparseable?)
      ensures file == if ok then Table(TableOf(old(file))[id := r]) else old(file)
    {
      if file.Unparseable? || !writeOk { return false; }
      var records := if file.Table? then file.records else map[];
      records := records[id := r];
      file := Table(records);
      ok := true;
    }

    method Delete(id: string, writeOk: bool) returns (ok: bool)
      modifies this
      ensures ok == (old(file).Missing? || (writeOk && old(file).Table?))
      ensures TableOf(file) == if ok then TableOf(old(file)) - {id} else TableOf(old(file))
      ensures file.Unparseable? == old(file).Unparseable?
    {
      if file.Missing? { return true; }
      if file.Unparseable? || !writeOk { return false; }
      file := Table(file.records - {id});
      ok := true;
    }
  }

  /** Which calls of one reconcile succeed. */
  datatype Luck = Luck(announced: bool, devicesListed: bool, cdiWritten: bool, saved: bool, cdiRemoved: bool,
      deleted: bool, reported: bool)

  datatype Outcome = Done | Retry

  // ----- What a reconcile achieves -----

  /** Bytes of a card that are neither the driver's nor promised. */
  function Unpromised(l: Ledger, d: Device): int {
    d.total - d.reserved - (if d.uuid in l.committed then l.committed[d.uuid] else 0)
  }

  ghost predicate SomeCardFits(l: Ledger, devices: seq<Device>, bytes: int) {
    exists d :: d in devices && Unpromised(l, d) >= bytes
  }

  ghost predicate TightestCard(l: Ledger, devices: seq<Device>, uuid: string, bytes: int) {
    exists d :: d in devices && d.uuid == uuid && Unpromised(l, d) >= bytes
             && forall d' :: d' in devices && Unpromised(l, d') >= bytes ==> Unpromised(l, d) <= Unpromised(l, d')
  }

  /** The ledger and its index hold one allocation for the slice: the one it had, or a new one on the tightest card. */
  ghost predicate HasAllocation(l: Ledger, l': Ledger, u: string, devices: seq<Device>, bytes: int, id: string) {
    if u in l.bySlice then l' == l && l'.bySlice[u] in l'.byAlloc
    else (
      && l'.bySlice == l.bySlice[u := id]
      && id in l'.byAlloc && TightestCard(l, devices, l'.byAlloc[id].device, bytes)
      && l'.byAlloc == l.byAlloc[id := Entry(u, l'.byAlloc[id].device, bytes)])
  }

  predicate Named(devices: seq<Device>) {
    forall d :: d in devices ==> d.uuid != ""
  }

  /** The allocation `id` of slice `u`, with card and bytes, is on disk and in the status. */
  predicate Granting(a: Agent, b: Agent, u: string, id: string, e: Entry, saved: bool, reported: bool)
    requires u in a.slices
  {
    && b.records == (if saved then a.records[id := Record(u, e.device, e.bytes)] else a.records)
    && b.slices == a.slices[u :=
        if saved && reported then a.slices[u].(phase := Ready, allocID := id, device := e.device, granted := e.bytes)
        else a.slices[u].(phase := Allocating)]
  }

  /** From `mid` to `b`, once the allocator has answered. */
  predicate Concluded(mid: Agent, b: Agent, u: string, result: AllocResult, luck: Luck, readable: bool, r: Outcome)
    requires u in mid.slices
  {
    match result
    case Refused => b == mid && r == Retry
    case Fragmented(_, _) =>
      && b.ledger == mid.ledger && b.records == mid.records && (r == Done <==> luck.reported)
      && b.slices == (if luck.reported then mid.slices[u := mid.slices[u].(phase := Failed)] else mid.slices)
    case Granted(got, _, _) =>
      got in mid.ledger.byAlloc ==>
        var saved := luck.cdiWritten && luck.saved && readable;
        && b.ledger == mid.ledger && Granting(mid, b, u, got, mid.ledger.byAlloc[got], saved, luck.reported)
        && (r == Done <==> saved && luck.reported)
  }

  /** From `a` to `b` for an allocatable slice: Ready with ledger, index, record and status agreeing once every call
      goes through, Failed when no card fits, and a retry exactly when a call that was needed failed. */
  ghost predicate AllocationComesTo(a: Agent, b: Agent, u: string, devices: seq<Device>, id: string, luck: Luck,
      readable: bool, r: Outcome)
    requires u in a.slices
  {
    var bytes := a.slices[u].bytes;
    var saved := luck.cdiWritten && luck.saved && readable;
    if !luck.announced then b == a && r == Retry
    else if !luck.devicesListed || bytes <= 0 then
      && b.ledger == a.ledger && b.records == a.records
      && b.slices == a.slices[u := a.slices[u].(phase := Allocating)] && r == Retry
    else if u !in a.ledger.bySlice && !SomeCardFits(a.ledger, devices, bytes) then
      && b.ledger == a.ledger && b.records == a.records
      && b.slices == a.slices[u := a.slices[u].(phase := if luck.reported then Failed else Allocating)]
      && (r == Done <==> luck.reported)
    else
      && HasAllocation(a.ledger, b.ledger, u, devices, bytes, id)
      && Granting(a, b, u, b.ledger.bySlice[u], b.ledger.byAlloc[b.ledger.bySlice[u]], saved, luck.reported)
      && (r == Done <==> saved && luck.reported)
  }

  /** The allocation a release gives back: the one the status names, else the one the ledger has; "" for none. */
  function ToRelease(a: Agent, u: string): string
    requires u in a.slices
  {
    if a.slices[u].allocID != "" then a.slices[u].allocID else if u in a.ledger.bySlice then a.ledger.bySlice[u] else ""
  }

  /** Reporting Released is nothing to do the second time; else it is one write, which the phase must allow. */
  predicate Finishes(s: Slice, luck: Luck) {
    s.phase.Released? || (luck.reported && !s.phase.Preempting?)
  }

  function Finished(slices: map<string, Slice>, u: string, luck: Luck, erased: bool): map<string, Slice>
    requires u in slices
  {
    if erased && !slices[u].phase.Released? && Finishes(slices[u], luck)
    then slices[u := slices[u].(phase := Released, allocID := "", device := "", granted := 0)]
    else slices
  }

  /** From `a` to `b` for a slice in release: no ledger entry, no record, Released once every call goes through, and a
      retry exactly when a call that was needed failed. */
  ghost predicate ReleaseComesTo(a: Agent, b: Agent, u: string, luck: Luck, file: File, r: Outcome)
    requires u in a.slices
  {
    var s, id := a.slices[u], ToRelease(a, u);
    var erased := id == "" || (luck.cdiRemoved && (file.Missing? || (file.Table? && luck.deleted)));
    if s.allocID != "" && !luck.cdiRemoved then b == a && r == Retry
    else
      && (if id !in a.ledger.byAlloc || id == "" then b.ledger == a.ledger
          else && b.ledger.byAlloc == a.ledger.byAlloc - {id}
               && b.ledger.bySlice == a.ledger.bySlice - ({a.ledger.byAlloc[id].slice} - {""}))
      && b.records == (if erased && id != "" then a.records - {id} else a.records)
      && b.slices == Finished(a.slices, u, luck, erased)
      && (r == Done <==> erased && Finishes(s, luck))
  }

  class Manager {
    const allocator: Allocator
    const store: Store
    var slices: map<string, Slice>         // slice statuses, as the API server has them
    ghost var pc: PC
    ghost var released: set<string>
    ghost var named: map<string, string>

    ghost function View(): Agent
      reads this, allocator, store
    {
      Agent(allocator.View(), TableOf(store.file), slices, pc, released, named)
    }

    /** Restart: the ledger is rebuilt from whatever the store holds, in the order the records come. */
    constructor (store: Store, slices: map<string, Slice>, ghost released: set<string>,
        ghost named: map<string, string>)
      ensures this.store == store && fresh(allocator) && this.slices == slices && pc == Idle
      ensures this.released == released && this.named == named
      ensures store.file.Unparseable? ==> allocator.View() == EmptyLedger
      ensures !store.file.Unparseable? ==>
                exists order ::
                    Lists(order, TableOf(store.file)) && allocator.View() == Rebuilt(TableOf(store.file), order)
    {
      this.store, this.slices, pc := store, slices, Idle;
      this.released, this.named := released, named;
      var a := new Allocator();
      allocator := a;
      new;
      var ok, records := store.LoadAll();
      if ok {
        ghost var order := Seed(records);
        assert Lists(order, TableOf(store.file));
      }
    }

    method Seed(records: map<string, Record>) returns (ghost order: seq<string>)
      requires allocator.View() == EmptyLedger
      modifies allocator
      ensures Lists(order, records) && allocator.View() == Rebuilt(records, order)
    {
      order := [];
      var todo := records.Keys;
      while todo != {}
        invariant todo <= records.Keys
        invariant forall id :: id in order <==> id in records && id !in todo
        invariant forall i, j :: 0 <= i < j < |order| ==> order[i] != order[j]
        invariant allocator.View() == Rebuilt(records, order)
        decreases todo
      {
        var id :| id in todo;
        var r := records[id];
        allocator.RestoreAllocation(id, r.slice, r.device, r.bytes);
        assert (order + [id])[..|order|] == order;
        order := order + [id];
        todo := todo - {id};
      }
    }

    /** One reconcile of one slice is a run of protocol steps, cut short by the first call that fails. */
    method ReconcileSlice(u: string, devices: seq<Device>, id: string, luck: Luck)
        returns (r: Outcome, ghost run: seq<Step>)
      requires u in slices && u != "" && pc == Idle && "" !in allocator.bySlice.Values
      modifies this, allocator, store
      ensures pc == Idle && EnabledRun(old(View()), run) && View() == DoAll(old(View()), run)
      ensures forall s ::
          s in run ==> s in [Announce(u), Allot(devices, id), Save, ReportReady, ReportFailed, BeginRelease(u), Erase,
          ReportReleased, Abort]
      ensures u in slices
      ensures (slices[u].phase.Ready? && !old(slices)[u].phase.Ready? ==>
          run == [Announce(u), Allot(devices, id), Save, ReportReady])
      ensures var s := old(slices[u]);
              !s.deleting && s.phase in {Scheduled, Allocating} && Indexed(old(allocator.View())) && Named(devices) ==>
          AllocationComesTo(old(View()), View(), u, devices, id, luck, !old(store.file).Unparseable?, r)
      ensures old(slices[u].deleting || slices[u].phase.Releasing?) ==>
          ReleaseComesTo(old(View()), View(), u, luck, old(store.file), r)
      ensures !old(slices[u].deleting) && old(slices[u].phase) !in {Scheduled, Allocating, Releasing} ==>
          r == Done && View() == old(View())
    {
      run := [];
      var s := slices[u];
      if !s.deleting && (s.phase.Scheduled? || s.phase.Allocating?) {
        r, run := AllocationPath(u, devices, id, luck);
      } else if s.phase.Releasing? || s.deleting {
        r, run := ReleasePath(u, luck);
      } else {
        r := Done;
      }
    }

    method AllocationPath(u: string, devices: seq<Device>, id: string, luck: Luck)
        returns (r: Outcome, ghost run: seq<Step>)
      requires u in slices && u != "" && pc == Idle && Allocatable(slices[u])
      modifies this, allocator, store
      ensures pc == Idle && EnabledRun(old(View()), run) && View() == DoAll(old(View()), run)
      ensures forall s :: s in run ==> s in [Announce(u), Allot(devices, id), Save, ReportReady, ReportFailed, Abort]
      ensures u in slices && (slices[u].phase.Ready? ==> run == [Announce(u), Allot(devices, id), Save, ReportReady])
      ensures Indexed(old(allocator.View())) && Named(devices) ==>
          AllocationComesTo(old(View()), View(), u, devices, id, luck, !old(store.file).Unparseable?, r)
    {
      run := [];
      if !luck.announced { return Retry, run; }
      slices := slices[u := slices[u].(phase := Allocating)];
      pc := Announced(u);
      RunOne(old(View()), Announce(u));
      assert View() == Do(old(View()), Announce(u));
      hide Do, DoAll, EnabledRun;
      label told:
      r, run := AllotAndFinish(u, devices, id, luck, old(View()), [Announce(u)]);
      hide AllocationComesTo, HasAllocation;
      if Indexed(old(allocator.View())) && Named(devices) {
        Announcing(old(View()), old@told(View()), View(), u, devices, id, luck, !old(store.file).Unparseable?, r);
      }
    }

    method AllotAndFinish(u: string, devices: seq<Device>, id: string, luck: Luck, ghost a: Agent, ghost run: seq<Step>)
      returns (r: Outcome, ghost run': seq<Step>)
      requires pc == Announced(u) && u in slices && u != "" && slices[u].phase.Allocating? && !slices[u].deleting
      requires EnabledRun(a, run) && View() == DoAll(a, run)
      modifies this, allocator, store
      ensures pc == Idle && EnabledRun(a, run') && View() == DoAll(a, run')
      ensures u in slices && (slices[u].phase.Ready? ==> run' == run + [Allot(devices, id)] + [Save, ReportReady])
      ensures run' == run + [Abort] || exists end ::
          run' == run + [Allot(devices, id)] + end
          && end in [[], [ReportFailed], [Abort], [Save, ReportReady], [Save, Abort]]
      ensures Indexed(old(allocator.View())) && Named(devices) ==>
          AllocationComesTo(old(View().(pc := Idle)), View(), u, devices, id, luck.(announced := true),
          !old(store.file).Unparseable?, r)
    {
      if !luck.devicesListed {
        pc := Idle;
        RunSnoc(a, run, Abort);
        return Retry, run + [Abort];
      }
      RunSnoc(a, run, Allot(devices, id));
      hide DoAll, EnabledRun;
      var result := AllotOnce(u, devices, id);
      hide Do;
      label allotted:
      r, run' := Conclude(u, result, luck, a, run + [Allot(devices, id)]);
      hide Allocate, Granting, AllocationComesTo;
      if Indexed(old(allocator.View())) && Named(devices) {
        Allotted(old(View()), old@allotted(View()), View(), u, devices, id, luck, !old(store.file).Unparseable?,
                 result, r);
      }
    }

    method Conclude(u: string, result: AllocResult, luck: Luck, ghost a: Agent, ghost run: seq<Step>)
      returns (r: Outcome, ghost run': seq<Step>)
      requires u in slices && slices[u].phase.Allocating? && !slices[u].deleting
      requires match result
               case Refused => pc == Idle
               case Fragmented(_, _) => pc == Impossible(u)
               case Granted(got, device, bytes) => pc == HasRoom(u, got) && (got in allocator.byAlloc ==>
                 allocator.byAlloc[got].device == device && allocator.byAlloc[got].bytes == bytes)
      requires EnabledRun(a, run) && View() == DoAll(a, run)
      modifies this, store
      ensures pc == Idle && EnabledRun(a, run') && View() == DoAll(a, run')
      ensures u in slices && (slices[u].phase.Ready? ==> run' == run + [Save, ReportReady])
      ensures exists end ::
          run' == run + end && end in [[], [ReportFailed], [Abort], [Save, ReportReady], [Save, Abort]]
      ensures Concluded(old(View()), View(), u, result, luck, !old(store.file).Unparseable?, r)
    {
      hide DoAll, EnabledRun, Do;
      match result {
        case Refused =>
          assert run == run + [];
          r, run' := Retry, run;
        case Fragmented(_, _) => r, run' := FinishFailed(u, luck, a, run);
        case Granted(got, device, bytes) => r, run' := SaveAndReport(u, got, device, bytes, luck, a, run);
      }
    }

    method AllotOnce(u: string, devices: seq<Device>, id: string) returns (result: AllocResult)
      requires pc == Announced(u) && u in slices
      modifies this, allocator
      ensures View() == Do(old(View()), Allot(devices, id)) && slices == old(slices)
      ensures (allocator.View(), result) == Allocate(old(allocator.View()), devices, u, slices[u].bytes, id)
      ensures match result
              case Refused => pc == Idle
              case Fragmented(_, _) => pc == Impossible(u)
              case Granted(got, device, bytes) => pc == HasRoom(u, got) && (got in allocator.byAlloc ==>
                allocator.byAlloc[got].device == device && allocator.byAlloc[got].bytes == bytes)
    {
      result := allocator.AllocateSlice(devices, u, slices[u].bytes, id);
      match result {
        case Refused => pc := Idle;
        case Fragmented(_, _) => pc := Impossible(u);
        case Granted(got, _, _) => pc, named := HasRoom(u, got), named[u := got];
      }
    }

    method FinishFailed(u: string, luck: Luck, ghost a: Agent, ghost run: seq<Step>)
        returns (r: Outcome, ghost run': seq<Step>)
      requires pc == Impossible(u) && u in slices && slices[u].phase.Allocating? && !slices[u].deleting
      requires EnabledRun(a, run) && View() == DoAll(a, run)
      modifies this
      ensures pc == Idle && EnabledRun(a, run') && View() == DoAll(a, run')
      ensures run' == run + [ReportFailed] || run' == run + [Abort]
      ensures u in slices && !slices[u].phase.Ready?
      ensures slices == if luck.reported then old(slices)[u := old(slices)[u].(phase := Failed)] else old(slices)
      ensures r == Done <==> luck.reported
    {
      pc := Idle;
      if luck.reported {
        slices := slices[u := slices[u].(phase := Failed)];
        RunSnoc(a, run, ReportFailed);
        return Done, run + [ReportFailed];
      }
      RunSnoc(a, run, Abort);
      return Retry, run + [Abort];
    }

    method SaveAndReport(u: string, id: string, device: string, bytes: int, luck: Luck, ghost a: Agent,
        ghost run: seq<Step>)
      returns (r: Outcome, ghost run': seq<Step>)
      requires pc == HasRoom(u, id) && u in slices && slices[u].phase.Allocating? && !slices[u].deleting
      requires id in allocator.byAlloc ==>
          allocator.byAlloc[id].device == device && allocator.byAlloc[id].bytes == bytes
      requires EnabledRun(a, run) && View() == DoAll(a, run)
      modifies this, store
      ensures pc == Idle && EnabledRun(a, run') && View() == DoAll(a, run')
      ensures u in slices
          && (run' == run + [Save, ReportReady]
          || (!slices[u].phase.Ready? && (run' == run + [Abort] || run' == run + [Save, Abort])))
      ensures var saved := luck.cdiWritten && luck.saved && !old(store.file).Unparseable?;
              id in allocator.byAlloc ==>
                Granting(old(View()), View(), u, id, allocator.byAlloc[id], saved, luck.reported)
                && (r == Done <==> saved && luck.reported)
    {
      var saved := false;
      if luck.cdiWritten && id in allocator.byAlloc {
        saved := store.Save(id, Record(u, device, bytes), luck.saved);
      }
      if !saved {
        pc := Idle;
        RunSnoc(a, run, Abort);
        return Retry, run + [Abort];
      }
      pc := Durable(u, id);
      RunSnoc(a, run, Save);
      pc := Idle;
      assert run + [Save] + [ReportReady] == run + [Save, ReportReady];
      assert run + [Save] + [Abort] == run + [Save, Abort];
      if luck.reported {
        slices := slices[u := slices[u].(phase := Ready, allocID := id, device := device, granted := bytes)];
        RunSnoc(a, run + [Save], ReportReady);
        return Done, run + [Save, ReportReady];
      }
      RunSnoc(a, run + [Save], Abort);
      return Retry, run + [Save, Abort];
    }

    method ReleasePath(u: string, luck: Luck) returns (r: Outcome, ghost run: seq<Step>)
      requires u in slices && u != "" && pc == Idle && (slices[u].phase.Releasing? || slices[u].deleting)
          && "" !in allocator.bySlice.Values
      modifies this, allocator, store
      ensures pc == Idle && EnabledRun(old(View()), run) && View() == DoAll(old(View()), run)
      ensures forall s :: s in run ==> s in [BeginRelease(u), Erase, ReportReleased, Abort]
      ensures u in slices && (slices[u].phase.Ready? ==> old(slices)[u].phase.Ready?)
      ensures ReleaseComesTo(old(View()), View(), u, luck, old(store.file), r)
    {
      hide Do, Enabled, Release;
      if slices[u].allocID != "" && !luck.cdiRemoved {
        NothingYet(View(), u, luck, store.file);
        return Retry, [];
      }
      var id := FreeLedger(u);
      run := [BeginRelease(u)];
      hide DoAll, EnabledRun, ReleaseComesTo;
      if id != "" {
        r, run := EraseAndReport(u, id, luck, old(View()), run);
      } else {
        r, run := FinishReleased(u, luck, old(View()), run);
      }
      Returned(old(View()), View(), u, luck, old(store.file), r);
    }

    method FreeLedger(u: string) returns (id: string)
      requires u in slices && u != "" && pc == Idle && (slices[u].phase.Releasing? || slices[u].deleting)
          && "" !in allocator.bySlice.Values
      modifies this, allocator
      ensures EnabledRun(old(View()), [BeginRelease(u)]) && View() == DoAll(old(View()), [BeginRelease(u)])
      ensures id == old(ToRelease(View(), u)) && pc == (if id == "" then Cleared(u) else Freed(u, id))
      ensures slices == old(slices)
      ensures allocator.View() ==
              if id == "" then old(allocator.View()) else Release(old(allocator.View()), id)
    {
      id := slices[u].allocID;
      if id != "" {
        allocator.ReleaseAllocation(id);
      } else {
        id := allocator.ReleaseBySlice(u);
      }
      if id != "" {
        pc, released := Freed(u, id), released + {id};
      } else {
        pc := Cleared(u);
      }
      hide Release, DoAll, EnabledRun;
      RunOne(old(View()), BeginRelease(u));
    }

    method EraseAndReport(u: string, id: string, luck: Luck, ghost a: Agent, ghost run: seq<Step>)
        returns (r: Outcome, ghost run': seq<Step>)
      requires pc == Freed(u, id) && u in slices && (slices[u].phase.Releasing? || slices[u].deleting)
      requires EnabledRun(a, run) && View() == DoAll(a, run)
      modifies this, store
      ensures pc == Idle && EnabledRun(a, run') && View() == DoAll(a, run')
      ensures run' == run + [Abort] || run' == run + [Erase] + [ReportReleased] || run' == run + [Erase] + [Abort]
      ensures u in slices && (slices[u].phase.Ready? ==> old(slices)[u].phase.Ready?)
      ensures var file := old(store.file);
              var erased := luck.cdiRemoved && (file.Missing? || (file.Table? && luck.deleted));
              && TableOf(store.file) == (if erased then TableOf(file) - {id} else TableOf(file))
              && slices == Finished(old(slices), u, luck, erased)
              && (r == Done <==> erased && Finishes(old(slices)[u], luck))
    {
      var erased := false;
      if luck.cdiRemoved { erased := store.Delete(id, luck.deleted); }
      if !erased {
        pc := Idle;
        RunSnoc(a, run, Abort);
        return Retry, run + [Abort];
      }
      pc := Cleared(u);
      RunSnoc(a, run, Erase);
      r, run' := FinishReleased(u, luck, a, run + [Erase]);
    }

    method FinishReleased(u: string, luck: Luck, ghost a: Agent, ghost run: seq<Step>)
        returns (r: Outcome, ghost run': seq<Step>)
      requires pc == Cleared(u) && u in slices && (slices[u].phase.Releasing? || slices[u].deleting)
      requires EnabledRun(a, run) && View() == DoAll(a, run)
      modifies this
      ensures pc == Idle && EnabledRun(a, run') && View() == DoAll(a, run')
      ensures run' == run + [ReportReleased] || run' == run + [Abort]
      ensures u in slices && (slices[u].phase.Ready? ==> old(slices)[u].phase.Ready?)
      ensures slices == Finished(old(slices), u, luck, true)
      ensures r == Done <==> Finishes(old(slices)[u], luck)
    {
      pc := Idle;
      if slices[u].phase.Released? {
        RunSnoc(a, run, ReportReleased);
        return Done, run + [ReportReleased];
      }
      if slices[u].phase.Preempting? || !luck.reported {
        RunSnoc(a, run, Abort);
        return Retry, run + [Abort];
      }
      slices := slices[u := slices[u].(phase := Released, allocID := "", device := "", granted := 0)];
      RunSnoc(a, run, ReportReleased);
      return Done, run + [ReportReleased];
    }
  }

  lemma NothingYet(a: Agent, u: string, luck: Luck, file: File)
    requires u in a.slices && a.slices[u].allocID != "" && !luck.cdiRemoved
    ensures ReleaseComesTo(a, a, u, luck, file, Retry)
  {
  }

  lemma Returned(a: Agent, b: Agent, u: string, luck: Luck, file: File, r: Outcome)
    requires u in a.slices && (a.slices[u].allocID != "" ==> luck.cdiRemoved)
    requires var id := ToRelease(a, u);
             var erased := id == "" || (luck.cdiRemoved && (file.Missing? || (file.Table? && luck.deleted)));
             && b.ledger == (if id == "" then a.ledger else Release(a.ledger, id))
             && b.records == (if erased && id != "" then a.records - {id} else a.records)
             && b.slices == Finished(a.slices, u, luck, erased)
             && (r == Done <==> erased && Finishes(a.slices[u], luck))
    ensures ReleaseComesTo(a, b, u, luck, file, r)
  {
  }

  lemma Announcing(a: Agent, told: Agent, b: Agent, u: string, devices: seq<Device>, id: string, luck: Luck,
      readable: bool, r: Outcome)
    requires u in a.slices && a.pc.Idle? && luck.announced
    requires told == a.(slices := a.slices[u := a.slices[u].(phase := Allocating)], pc := Announced(u))
    requires AllocationComesTo(told.(pc := Idle), b, u, devices, id, luck.(announced := true), readable, r)
    ensures AllocationComesTo(a, b, u, devices, id, luck, readable, r)
  {
    hide SomeCardFits, TightestCard;
    var s, w := a.slices[u], told.slices;
    assert luck.(announced := true) == luck;
    assert w[u := s.(phase := Allocating)] == a.slices[u := s.(phase := Allocating)];
    assert w[u := s.(phase := Failed)] == a.slices[u := s.(phase := Failed)];
    if u in b.ledger.bySlice && b.ledger.bySlice[u] in b.ledger.byAlloc {
      var got := b.ledger.bySlice[u];
      var e := b.ledger.byAlloc[got];
      var ready := s.(phase := Ready, allocID := got, device := e.device, granted := e.bytes);
      assert w[u := ready] == a.slices[u := ready];
    }
  }

  lemma Allotted(a: Agent, mid: Agent, b: Agent, u: string, devices: seq<Device>, id: string, luck: Luck,
      readable: bool, result: AllocResult, r: Outcome)
    requires u in a.slices && u != "" && a.slices[u].phase.Allocating? && luck.devicesListed
    requires Indexed(a.ledger) && Named(devices)
    requires (mid.ledger, result) == Allocate(a.ledger, devices, u, a.slices[u].bytes, id)
    requires mid.slices == a.slices && mid.records == a.records
    requires Concluded(mid, b, u, result, luck, readable, r)
    ensures AllocationComesTo(a.(pc := Idle), b, u, devices, id, luck.(announced := true), readable, r)
  {
    AllotTells(a.ledger, devices, u, a.slices[u].bytes, id);
    hide Allocate, SomeCardFits, TightestCard;
  }

  /** What the allocator answers, by what the cards have left. */
  lemma AllotTells(l: Ledger, devices: seq<Device>, u: string, bytes: int, id: string)
    requires u != "" && Indexed(l) && Named(devices)
    ensures var (l', r) := Allocate(l, devices, u, bytes, id);
            if bytes <= 0 then l' == l && r == Refused
            else if u !in l.bySlice && !SomeCardFits(l, devices, bytes) then l' == l && r.Fragmented?
            else HasAllocation(l, l', u, devices, bytes, id) && r.Granted? && l'.bySlice[u] == r.id
                 && l'.byAlloc[r.id].device == r.device && l'.byAlloc[r.id].bytes == r.bytes
  {
    if bytes > 0 && u !in l.bySlice {
      FragmentedExactly(l, devices, u, bytes, id);
      BestFitIsTightest(l, devices, bytes);
      hide BestFit, NodeFree;
      if SomeCardFits(l, devices, bytes) {
        var d :| d in devices && Unpromised(l, d) >= bytes;
        assert Available(l, d) >= bytes;
      }
    }
  }

  /** When every call goes through, an allocatable slice ends Ready, with ledger, index, record and status telling of
      one grant, if it had an allocation or some card has the room; and Failed if not. */
  lemma AllocationSettles(a: Agent, b: Agent, u: string, devices: seq<Device>, id: string, luck: Luck, r: Outcome,
      cap: map<string, int>)
    requires AgentOk(a, cap) && u in a.slices && a.slices[u].bytes > 0
    requires !a.slices[u].deleting && a.slices[u].phase in {Scheduled, Allocating}
    requires luck.announced && luck.devicesListed && luck.cdiWritten && luck.saved && luck.reported
    requires AllocationComesTo(a, b, u, devices, id, luck, true, r)
    ensures r == Done && u in b.slices
    ensures var had := exists k :: k in a.ledger.byAlloc && a.ledger.byAlloc[k].slice == u;
            var fits := exists d ::
                d in devices && d.total - d.reserved - Committed(a.ledger, d.uuid) >= a.slices[u].bytes;
            if had || fits then
              var s := b.slices[u];
              && s.phase.Ready? && u in b.ledger.bySlice && b.ledger.bySlice[u] == s.allocID
              && s.allocID in b.ledger.byAlloc && b.ledger.byAlloc[s.allocID] == Entry(u, s.device, s.granted)
              && s.allocID in b.records && b.records[s.allocID] == Record(u, s.device, s.granted)
              && (!had ==> s.granted == s.bytes)
            else b.slices[u] == a.slices[u].(phase := Failed) && b.ledger == a.ledger && b.records == a.records
  {
    hide Balanced, LiveOk, Records, Statuses, TightestCard;
    assert forall k :: k in a.ledger.byAlloc ==> EntryOk(a, k);
    assert forall d :: Committed(a.ledger, d) == if d in a.ledger.committed then a.ledger.committed[d] else 0;
    hide Entries, EntryOk;
  }

  /** When every call goes through, a slice in release ends Released, and a ledger, index or record entry of it is left
      in exactly the one case of a record that neither status nor ledger knows of. */
  lemma ReleaseSettles(a: Agent, b: Agent, u: string, luck: Luck, file: File, r: Outcome, cap: map<string, int>)
    requires AgentOk(a, cap) && u in a.slices && (a.slices[u].deleting || a.slices[u].phase.Releasing?)
    requires luck.cdiRemoved && luck.deleted && luck.reported && !file.Unparseable? && !a.slices[u].phase.Preempting?
    requires ReleaseComesTo(a, b, u, luck, file, r)
    ensures r == Done && u in b.slices && b.slices[u].phase.Released?
    ensures !Residue(b, u) <==>
            || a.slices[u].allocID != "" || u in a.ledger.bySlice
            || forall id :: id in a.records ==> a.records[id].slice != u
  {
    hide Balanced, LiveOk;
    assert StatusOk(a, u);
    assert forall k :: k in a.ledger.byAlloc ==> EntryOk(a, k);
    assert forall k :: k in a.records ==> RecordOk(a, k);
    hide Entries, Statuses, Records;
  }

  lemma RunOne(a: Agent, s: Step)
    requires Enabled(a, s)
    ensures EnabledRun(a, [s]) && DoAll(a, [s]) == Do(a, s)
  {
    hide Do, Enabled;
    assert [s][1..] == [];
  }

  lemma {:induction false} RunSnoc(a: Agent, run: seq<Step>, s: Step)
    requires EnabledRun(a, run) && Enabled(DoAll(a, run), s)
    ensures EnabledRun(a, run + [s]) && DoAll(a, run + [s]) == Do(DoAll(a, run), s)
    decreases |run|
  {
    hide Do, Enabled;
    if run == [] {
      assert [] + [s] == [s];
      RunOne(a, s);
    } else {
      RunSnoc(Do(a, run[0]), run[1..], s);
      assert (run + [s])[1..] == run[1..] + [s];
    }
  }

  /** The ledger a restarted manager builds is the ledger before the crash as far as saved records go. */
  lemma SeededIsRestarted(a: Agent, order: seq<string>)
    requires Records(a) && Lists(order, a.records)
    ensures Rebuilt(a.records, order) == Restarted(a.records)
  {
    RestartedExact(a);
    RebuiltFrom(a, order);
    hide Restarted, Rebuilt, LedgerOk, Records;
    assert Rebuilt(a.records, order).byAlloc == Restarted(a.records).byAlloc;
    LedgerDetermined(Rebuilt(a.records, order), Restarted(a.records));
  }

  lemma RebuiltFrom(a: Agent, order: seq<string>)
    requires Records(a) && Lists(order, a.records)
    ensures LedgerOk(Rebuilt(a.records, order)) && Rebuilt(a.records, order).byAlloc.Keys == a.records.Keys
    ensures forall id :: id in a.records ==> Rebuilt(a.records, order).byAlloc[id] == EntryOf(a.records[id])
  {
    hide LedgerOk, Rebuilt;
    assert forall id :: id in a.records ==> RecordOk(a, id);
    RebuiltExact(a.records, order);
  }
}
