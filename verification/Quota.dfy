/** Namespace quota: API-visible usage plus the scheduler's own in-flight ledger. */
module Quotas {
  import opened Sums
  import opened VRAMCaches
  import opened VRAMCacheClass

  /** A slice as a list shows it. `over` is a Released or Failed phase; `gang` is "" for a solo slice. */
  datatype Listed = Listed(gang: string, bound: bool, over: bool, granted: int, requested: int)

  datatype Quota = Quota(namespace: string, max: int)

  /** Bytes a bound slice is accounted for: its allocation once it has one, its request before. */
  function HeldBytes(s: Listed): int {
    if s.granted > 0 then s.granted else s.requested
  }

  predicate Excluded(s: Listed, excludeGang: string) {
    excludeGang != "" && s.gang == excludeGang
  }

  predicate IsCounted(s: Listed, excludeGang: string) {
    Excluded(s, excludeGang) || s.bound
  }

  function UsedBytes(s: Listed, excludeGang: string): int {
    if s.bound && !s.over && !Excluded(s, excludeGang) then HeldBytes(s) else 0
  }

  ghost function UsedWeight(excludeGang: string): (string, Listed) -> int {
    (u: string, s: Listed) => UsedBytes(s, excludeGang)
  }

  /** Slice UIDs are unique in a list. */
  ghost predicate ListsAll(items: seq<(string, Listed)>, seen: map<string, Listed>) {
    && (forall i :: 0 <= i < |items| ==> items[i].0 in seen && seen[items[i].0] == items[i].1)
    && (forall u :: u in seen ==> exists i :: 0 <= i < |items| && items[i].0 == u)
    && (forall i, j :: 0 <= i < j < |items| ==> items[i].0 != items[j].0)
  }

  function CountedSet(seen: map<string, Listed>, excludeGang: string): set<string> {
    set u | u in seen && IsCounted(seen[u], excludeGang)
  }

  lemma CountOne(done: map<string, Listed>, uid: string, s: Listed, excludeGang: string)
    requires uid !in done
    ensures SumBy(done[uid := s], UsedWeight(excludeGang))
        == SumBy(done, UsedWeight(excludeGang)) + UsedBytes(s, excludeGang)
    ensures CountedSet(done[uid := s], excludeGang)
        == CountedSet(done, excludeGang) + if IsCounted(s, excludeGang) then {uid} else {}
  {
    SumInsert(done, UsedWeight(excludeGang), uid, s);
  }

  lemma NothingCounted(excludeGang: string)
    ensures SumBy(map[], UsedWeight(excludeGang)) == 0 && CountedSet(map[], excludeGang) == {}
  {
  }

  /** One pass over the list: the running total and the set of slices accounted for by any means. */
  method NamespaceUsage(items: seq<(string, Listed)>, excludeGang: string, ghost seen: map<string, Listed>)
      returns (total: int, counted: set<string>)
    requires ListsAll(items, seen)
    ensures total == SumBy(seen, UsedWeight(excludeGang)) && counted == CountedSet(seen, excludeGang)
  {
    hide SumBy, CountedSet;
    total, counted := 0, {};
    NothingCounted(excludeGang);
    ghost var done: map<string, Listed> := map[];
    for i := 0 to |items|
      invariant forall j :: 0 <= j < i ==> items[j].0 in done
      invariant forall j :: i <= j < |items| ==> items[j].0 !in done
      invariant forall u :: u in done ==> u in seen && seen[u] == done[u]
      invariant total == SumBy(done, UsedWeight(excludeGang))
      invariant counted == CountedSet(done, excludeGang)
    {
      var (uid, s) := items[i];
      CountOne(done, uid, s, excludeGang);
      done := done[uid := s];
      if excludeGang != "" && s.gang == excludeGang {
        counted := counted + {uid};
      } else if s.bound {
        counted := counted + {uid};
        if !s.over {
          total := total + HeldBytes(s);
        }
      }
    }
    assert done == seen;
  }

  /** The verdict as a function of what the informer shows and what the cache holds. */
  ghost predicate Admits(max: int, seen: map<string, Listed>, c: CacheState, namespace: string, demand: int,
      excludeGang: string) {
    SumBy(seen, UsedWeight(excludeGang)) + PendingBytes(c, namespace, CountedSet(seen, excludeGang)) + demand <= max
  }

  function FirstFor(quotas: seq<Quota>, namespace: string): int {
    if quotas == [] then -1
    else if quotas[0].namespace == namespace then 0
    else
      var i := FirstFor(quotas[1..], namespace);
      if i < 0 then -1 else i + 1
  }

  lemma {:induction false} FirstForIsFirst(quotas: seq<Quota>, namespace: string)
    ensures var i := FirstFor(quotas, namespace);
            -1 <= i < |quotas|
            && (if i < 0 then forall q :: q in quotas ==> q.namespace != namespace
                else quotas[i].namespace == namespace && forall j :: 0 <= j < i ==> quotas[j].namespace != namespace)
    decreases |quotas|
  {
    if quotas != [] {
      FirstForIsFirst(quotas[1..], namespace);
      assert quotas == [quotas[0]] + quotas[1..];
    }
  }

  /** Whether a check passes: a list failed, no quota covers the namespace, or the demand fits. A gang is weighed
      whole. */
  ghost predicate Passes(
      c: CacheState, quotasListed: bool, quotas: seq<Quota>, slicesListed: bool, seen: map<string, Listed>,
      namespace: string, requested: int, gangRef: string, gangTotal: int)
  {
    var whole := gangRef != "" && gangTotal > 0;
    var i := FirstFor(quotas, namespace);
    || !quotasListed || i < 0 || !slicesListed
    || (i < |quotas|
        && Admits(quotas[i].max, seen, c, namespace, if whole then gangTotal else requested, if whole then gangRef
            else ""))
  }

  /** Check with both list calls as inputs that may fail; a failed list admits. */
  method Check(
      cache: VRAMCache, quotasListed: bool, quotas: seq<Quota>, slicesListed: bool, items: seq<(string, Listed)>,
          ghost seen: map<string, Listed>,
      namespace: string, requested: int, gangRef: string, gangTotal: int) returns (admitted: bool)
    requires ListsAll(items, seen)
    ensures admitted
        <==> Passes(cache.View(), quotasListed, quotas, slicesListed, seen, namespace, requested, gangRef, gangTotal)
  {
    if !quotasListed { return true; }
    FirstForIsFirst(quotas, namespace);
    var match_ := -1;
    for i := 0 to |quotas|
      invariant match_ == -1 && forall j :: 0 <= j < i ==> quotas[j].namespace != namespace
    {
      if quotas[i].namespace == namespace { match_ := i; break; }
    }
    if match_ < 0 { return true; }
    var demand, excludeGang := requested, "";
    if gangRef != "" && gangTotal > 0 { demand, excludeGang := gangTotal, gangRef; }
    if !slicesListed { return true; }
    var used, counted := NamespaceUsage(items, excludeGang, seen);
    var pending := cache.PendingNamespaceBytes(namespace, counted);
    admitted := !(used + pending + demand > quotas[match_].max);
  }
}
