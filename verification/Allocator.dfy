/** The node agent's per-card ledger: best-fit placement, idempotent allocation, release, restore. */
module Allocators {
  import opened Sums

  /** A physical GPU; `reserved` is driver-reserved memory. */
  datatype Device = Device(uuid: string, total: int, reserved: int)

  datatype Entry = Entry(slice: string, device: string, bytes: int)

  datatype Ledger = Ledger(committed: map<string, int>, byAlloc: map<string, Entry>, bySlice: map<string, string>)

  const EmptyLedger := Ledger(map[], map[], map[])

  datatype AllocResult =
    | Granted(id: string, device: string, bytes: int)
    | Fragmented(requested: int, nodeFree: int)
    | Refused

  function Committed(l: Ledger, device: string): int {
    if device in l.committed then l.committed[device] else 0
  }

  function Available(l: Ledger, d: Device): int {
    var avail := d.total - d.reserved - Committed(l, d.uuid);
    if avail < 0 then 0 else avail
  }

  // ----- Best fit -----

  /** The first card of least sufficient space, and that space; -1 when no card fits. */
  function BestFit(l: Ledger, devices: seq<Device>, bytes: int): (string, int) {
    if devices == [] then ("", -1)
    else
      var (best, bestAvail) := BestFit(l, devices[..|devices| - 1], bytes);
      var d := devices[|devices| - 1];
      if Available(l, d) >= bytes && (bestAvail < 0 || Available(l, d) < bestAvail) then (d.uuid, Available(l, d))
          else (best, bestAvail)
  }

  function NodeFree(l: Ledger, devices: seq<Device>): int {
    if devices == [] then 0 else NodeFree(l, devices[..|devices| - 1]) + Available(l, devices[|devices| - 1])
  }

  /** Best fit finds a card exactly when one fits, and then none that fits is tighter. */
  lemma {:induction false} BestFitIsTightest(l: Ledger, devices: seq<Device>, bytes: int)
    requires bytes > 0
    ensures var (best, avail) := BestFit(l, devices, bytes);
            if avail < 0 then avail == -1 && best == "" && forall d :: d in devices ==> Available(l, d) < bytes
            else (exists d :: d in devices && d.uuid == best && Available(l, d) == avail && avail >= bytes)
                 && forall d :: d in devices && Available(l, d) >= bytes ==> avail <= Available(l, d)
    decreases |devices|
  {
    if devices != [] {
      var rest, last := devices[..|devices| - 1], devices[|devices| - 1];
      BestFitIsTightest(l, rest, bytes);
      assert devices == rest + [last];
      assert last in devices;
      assert forall d :: d in devices <==> d in rest || d == last;
    }
  }

  /** Of equally tight cards the one listed first is taken. */
  lemma {:induction false} BestFitIsFirst(l: Ledger, devices: seq<Device>, bytes: int) returns (i: int)
    requires bytes > 0 && exists d :: d in devices && Available(l, d) >= bytes
    ensures 0 <= i < |devices| && BestFit(l, devices, bytes) == (devices[i].uuid, Available(l, devices[i]))
    ensures forall j :: 0 <= j < i && Available(l, devices[j]) >= bytes ==>
              Available(l, devices[i]) < Available(l, devices[j])
    decreases |devices|
  {
    var rest, last := devices[..|devices| - 1], devices[|devices| - 1];
    assert devices == rest + [last];
    BestFitIsTightest(l, rest, bytes);
    if BestFit(l, devices, bytes) == (last.uuid, Available(l, last))
        && BestFit(l, rest, bytes) != BestFit(l, devices, bytes)
    {
      i := |devices| - 1;
      assert forall j :: 0 <= j < i ==> devices[j] in rest;
    } else {
      i := BestFitIsFirst(l, rest, bytes);
    }
  }

  // ----- Operations -----

  function Placed(l: Ledger, id: string, e: Entry): Ledger {
    Ledger(l.committed[e.device := Committed(l, e.device) + e.bytes], l.byAlloc[id := e],
           if e.slice != "" then l.bySlice[e.slice := id] else l.bySlice)
  }

  function Allocate(l: Ledger, devices: seq<Device>, slice: string, bytes: int, id: string): (Ledger, AllocResult) {
    if slice == "" || bytes <= 0 then (l, Refused)
    else if slice in l.bySlice then
      var prior := l.bySlice[slice];
      var e := if prior in l.byAlloc then l.byAlloc[prior] else Entry("", "", 0);
      (l, Granted(prior, e.device, e.bytes))
    else
      var best := BestFit(l, devices, bytes).0;
      if best == "" then (l, Fragmented(bytes, NodeFree(l, devices)))
      else (Placed(l, id, Entry(slice, best, bytes)), Granted(id, best, bytes))
  }

  function Release(l: Ledger, id: string): Ledger {
    if id !in l.byAlloc then l
    else
      var e := l.byAlloc[id];
      var left := Committed(l, e.device) - e.bytes;
      Ledger(if left <= 0 then l.committed - {e.device} else l.committed[e.device := left],
             l.byAlloc - {id},
             if e.slice != "" then l.bySlice - {e.slice} else l.bySlice)
  }

  function Restore(l: Ledger, id: string, e: Entry): Ledger {
    if id == "" || e.device == "" || e.bytes <= 0 || id in l.byAlloc then l else Placed(l, id, e)
  }

  // ----- The ledger invariant -----

  ghost function EntryWeight(device: string): (string, Entry) -> int {
    (id: string, e: Entry) => if e.device == device then e.bytes else 0
  }

  ghost function Promised(l: Ledger, device: string): int {
    SumBy(l.byAlloc, EntryWeight(device))
  }

  ghost predicate Balanced(l: Ledger, device: string) {
    Committed(l, device) == Promised(l, device) && (device in l.committed ==> l.committed[device] > 0)
  }

  ghost predicate Indexed(l: Ledger) {
    && (forall s :: s in l.bySlice ==> s != "" && l.bySlice[s] in l.byAlloc && l.byAlloc[l.bySlice[s]].slice == s)
    && (forall id :: id in l.byAlloc ==> l.byAlloc[id].bytes > 0)
    && (forall id :: id in l.byAlloc && l.byAlloc[id].slice != "" ==>
          l.byAlloc[id].slice in l.bySlice && l.bySlice[l.byAlloc[id].slice] == id)
  }

  /** Committed bytes are the sum of the entries, card by card, and the two indexes are inverse. */
  ghost predicate LedgerOk(l: Ledger) {
    Indexed(l) && forall d :: Balanced(l, d)
  }

  lemma EmptyLedgerOk()
    ensures LedgerOk(EmptyLedger)
  {
  }

  lemma PlacedBalanced(l: Ledger, id: string, e: Entry, device: string)
    requires Balanced(l, device) && id !in l.byAlloc && e.bytes > 0 && Indexed(l)
    ensures Balanced(Placed(l, id, e), device)
  {
    SumInsert(l.byAlloc, EntryWeight(device), id, e);
    SumNonNegative(l.byAlloc, EntryWeight(device));
    hide SumBy;
  }

  lemma PlacedOk(l: Ledger, id: string, e: Entry)
    requires LedgerOk(l) && id !in l.byAlloc && e.bytes > 0 && (e.slice == "" || e.slice !in l.bySlice)
    ensures LedgerOk(Placed(l, id, e))
  {
    hide Balanced;
    forall d ensures Balanced(Placed(l, id, e), d) {
      PlacedBalanced(l, id, e, d);
    }
  }

  lemma ReleasedBalanced(l: Ledger, id: string, device: string)
    requires Balanced(l, device) && id in l.byAlloc && Indexed(l)
    ensures Balanced(Release(l, id), device)
  {
    SumRemove(l.byAlloc, EntryWeight(device), id);
    SumNonNegative(l.byAlloc - {id}, EntryWeight(device));
    hide SumBy;
  }

  lemma ReleaseKeepsOk(l: Ledger, id: string)
    requires LedgerOk(l)
    ensures LedgerOk(Release(l, id))
  {
    hide Balanced;
    if id in l.byAlloc {
      forall d ensures Balanced(Release(l, id), d) {
        ReleasedBalanced(l, id, d);
      }
    }
  }

  /** Nothing is placed: a malformed request, a repeat, or no named card that fits. */
  predicate PlacesNothing(l: Ledger, devices: seq<Device>, slice: string, bytes: int) {
    slice == "" || bytes <= 0 || slice in l.bySlice || BestFit(l, devices, bytes).0 == ""
  }

  /** An allocation keeps the ledger exact if and only if nothing is placed or its id is fresh. */
  lemma AllocateExact(l: Ledger, devices: seq<Device>, slice: string, bytes: int, id: string)
    requires LedgerOk(l)
    ensures LedgerOk(Allocate(l, devices, slice, bytes, id).0)
        <==> PlacesNothing(l, devices, slice, bytes) || id !in l.byAlloc
  {
    var l' := Allocate(l, devices, slice, bytes, id).0;
    var e := Entry(slice, BestFit(l, devices, bytes).0, bytes);
    if PlacesNothing(l, devices, slice, bytes) {
      assert l' == l;
    } else if id !in l.byAlloc {
      PlacedOk(l, id, e);
    } else {
      SumInsert(l.byAlloc, EntryWeight(l.byAlloc[id].device), id, e);
      assert Balanced(l, l.byAlloc[id].device) && !Balanced(l', l.byAlloc[id].device);
    }
  }

  /** Restoring a record keeps the ledger exact if and only if its slice has no other allocation. */
  lemma RestoreExact(l: Ledger, id: string, e: Entry)
    requires LedgerOk(l) && id != "" && e.device != "" && e.bytes > 0 && id !in l.byAlloc
    ensures LedgerOk(Restore(l, id, e)) <==> e.slice == "" || e.slice !in l.bySlice
  {
    if e.slice == "" || e.slice !in l.bySlice {
      PlacedOk(l, id, e);
    } else {
      hide Balanced;
      assert l.bySlice[e.slice] != id && Placed(l, id, e).byAlloc[l.bySlice[e.slice]].slice == e.slice;
    }
  }

  /** What a refusal for lack of room reports as free on the node: card by card what is neither the driver's nor
      promised, an overdrawn card counting as nothing. */
  lemma {:induction false} PooledFree(l: Ledger, devices: seq<Device>, more: seq<Device>)
    ensures NodeFree(l, devices + more) == NodeFree(l, devices) + NodeFree(l, more)
    ensures forall d: Device ::
              var left := d.total - d.reserved - (if d.uuid in l.committed then l.committed[d.uuid] else 0);
              NodeFree(l, [d]) == if left < 0 then 0 else left
    decreases |more|
  {
    forall d: Device ensures NodeFree(l, [d]) == Available(l, d) {
      assert [d][..0] == [];
    }
    if more == [] {
      assert devices + more == devices;
    } else {
      PooledFree(l, devices, more[..|more| - 1]);
      assert (devices + more)[..|devices + more| - 1] == devices + more[..|more| - 1];
    }
  }

  /** A record is taken up exactly when it names an allocation, a card and bytes, and the ledger does not have it. */
  lemma RestoresExactly(l: Ledger, id: string, e: Entry)
    ensures Restore(l, id, e) != l <==> id != "" && e.device != "" && e.bytes > 0 && id !in l.byAlloc
    ensures Restore(l, id, e) != l ==>
              && Restore(l, id, e).byAlloc == l.byAlloc[id := e]
              && (e.slice != "" ==> Restore(l, id, e).bySlice == l.bySlice[e.slice := id])
  {
    assert id in Placed(l, id, e).byAlloc;
  }

  /** Allocate is idempotent per slice: repeating it returns the same allocation and changes nothing. */
  lemma AllocateIdempotent(l: Ledger, devices: seq<Device>, devices': seq<Device>, slice: string, bytes: int,
      bytes': int, id: string, id': string)
    requires LedgerOk(l) && bytes' > 0 && Allocate(l, devices, slice, bytes, id).1.Granted?
    ensures var (l', r) := Allocate(l, devices, slice, bytes, id); Allocate(l', devices', slice, bytes', id') == (l', r)
  {
    hide Balanced;
  }

  /** A first request is refused for lack of room exactly when no single named card fits it. */
  lemma FragmentedExactly(l: Ledger, devices: seq<Device>, slice: string, bytes: int, id: string)
    requires slice != "" && bytes > 0 && slice !in l.bySlice && forall d :: d in devices ==> d.uuid != ""
    ensures var r := Allocate(l, devices, slice, bytes, id).1;
            if forall d :: d in devices ==> Available(l, d) < bytes
            then r == Fragmented(bytes, NodeFree(l, devices))
            else r.Granted? && r.bytes == bytes && r.id == id
                 && exists d :: d in devices && d.uuid == r.device && Available(l, d) >= bytes
                      && forall d' :: d' in devices && Available(l, d') >= bytes ==> Available(l, d) <= Available(l, d')
  {
    BestFitIsTightest(l, devices, bytes);
  }

  /** Allocate then release restores the ledger. */
  lemma AllocateThenRelease(l: Ledger, devices: seq<Device>, slice: string, bytes: int, id: string)
    requires LedgerOk(l) && slice !in l.bySlice && id !in l.byAlloc
    requires Allocate(l, devices, slice, bytes, id).1.Granted?
    ensures Release(Allocate(l, devices, slice, bytes, id).0, id) == l
  {
    var e := Entry(slice, BestFit(l, devices, bytes).0, bytes);
    assert Balanced(l, e.device);
    hide Balanced, Promised;
    var back := Release(Placed(l, id, e), id);
    assert back.committed == l.committed && back.byAlloc == l.byAlloc && back.bySlice == l.bySlice;
  }

  /** The indexes and counters of an exact ledger are determined by its entries, whatever order built them. */
  lemma LedgerDetermined(a: Ledger, b: Ledger)
    requires LedgerOk(a) && LedgerOk(b) && a.byAlloc == b.byAlloc
    ensures a == b
  {
    forall d ensures d in a.committed <==> d in b.committed {
      assert Balanced(a, d) && Balanced(b, d);
    }
    forall d | d in a.committed ensures a.committed[d] == b.committed[d] {
      assert Balanced(a, d) && Balanced(b, d);
    }
    hide Balanced;
    assert a.committed == b.committed;
    assert a.bySlice == b.bySlice;
  }
}

/** The mutable allocator. */
module AllocatorClass {
  import opened Allocators

  class Allocator {
    var committed: map<string, int>
    var byAlloc: map<string, Entry>
    var bySlice: map<string, string>

    ghost function View(): Ledger
      reads this
    {
      Ledger(committed, byAlloc, bySlice)
    }

    constructor ()
      ensures View() == EmptyLedger
    {
      committed, byAlloc, bySlice := map[], map[], map[];
    }

    /** One pass with a running best and a running total. */
    method PickBestFit(devices: seq<Device>, bytes: int) returns (best: string, nodeFree: int)
      ensures best == BestFit(View(), devices, bytes).0 && nodeFree == NodeFree(View(), devices)
    {
      best, nodeFree := "", 0;
      var bestAvail := -1;
      for i := 0 to |devices|
        invariant (best, bestAvail) == BestFit(View(), devices[..i], bytes)
        invariant nodeFree == NodeFree(View(), devices[..i])
      {
        var d := devices[i];
        assert devices[..i + 1][..i] == devices[..i];
        var avail := d.total - d.reserved - (if d.uuid in committed then committed[d.uuid] else 0);
        if avail < 0 { avail := 0; }
        nodeFree := nodeFree + avail;
        if avail >= bytes && (bestAvail < 0 || avail < bestAvail) {
          best, bestAvail := d.uuid, avail;
        }
      }
      assert devices[..|devices|] == devices;
    }

    method AllocateSlice(devices: seq<Device>, slice: string, bytes: int, id: string) returns (r: AllocResult)
      modifies this
      ensures (View(), r) == Allocate(old(View()), devices, slice, bytes, id)
    {
      if slice == "" || bytes <= 0 { return Refused; }
      if slice in bySlice {
        var prior := bySlice[slice];
        var e := if prior in byAlloc then byAlloc[prior] else Entry("", "", 0);
        return Granted(prior, e.device, e.bytes);
      }
      var best, nodeFree := PickBestFit(devices, bytes);
      if best == "" { return Fragmented(bytes, nodeFree); }
      committed := committed[best := (if best in committed then committed[best] else 0) + bytes];
      byAlloc := byAlloc[id := Entry(slice, best, bytes)];
      bySlice := bySlice[slice := id];
      r := Granted(id, best, bytes);
    }

    method ReleaseAllocation(id: string)
      modifies this
      ensures View() == Release(old(View()), id)
    {
      if id !in byAlloc { return; }
      var e := byAlloc[id];
      committed := committed[e.device := (if e.device in committed then committed[e.device] else 0) - e.bytes];
      if committed[e.device] <= 0 { committed := committed - {e.device}; }
      byAlloc := byAlloc - {id};
      if e.slice != "" { bySlice := bySlice - {e.slice}; }
    }

    method ReleaseBySlice(slice: string) returns (id: string)
      modifies this
      ensures id == if slice != "" && slice in old(bySlice) then old(bySlice)[slice] else ""
      ensures View() == if slice != "" && slice in old(bySlice) then Release(old(View()), old(bySlice)[slice])
          else old(View())
    {
      if slice == "" { return ""; }
      if slice !in bySlice { return ""; }
      id := bySlice[slice];
      ReleaseAllocation(id);
    }

    method RestoreAllocation(id: string, slice: string, device: string, bytes: int)
      modifies this
      ensures View() == Restore(old(View()), id, Entry(slice, device, bytes))
    {
      if id == "" || device == "" || bytes <= 0 { return; }
      if id in byAlloc { return; }
      committed := committed[device := (if device in committed then committed[device] else 0) + bytes];
      byAlloc := byAlloc[id := Entry(slice, device, bytes)];
      if slice != "" { bySlice := bySlice[slice := id]; }
    }
  }
}
