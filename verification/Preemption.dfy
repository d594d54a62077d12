/**
 * Victim planning (internal/scheduler/preemptor.go): eligible victims, two stable sorts, one victim of
 * least sufficient size or else the shortest sufficient prefix. Ownership, cooldown writes and the marking
 * of victims are API effects outside the plan.
 */
module Preemption {
  import opened Sequences

  const PRIORITY_GAP := 100

  /** A listed slice with its claim and job joined in; `joined` is false when either could not be read. */
  datatype Listing = Listing(name: string, ready: bool, bytes: int, joined: bool, preemptible: bool, gang: bool,
      priority: int,
                             created: int, cooling: bool)

  /** `place` is the position in the listing. */
  datatype Victim = Victim(name: string, priority: int, bytes: int, created: int, place: nat)

  datatype Option<T> = None | Some(value: T)

  datatype Plan = Plan(victims: seq<Victim>, freed: int)

  datatype Order = ByRank | BySize

  predicate Eligible(s: Listing, requester: string, priority: int) {
    s.name != requester && s.ready && s.bytes > 0 && s.joined && s.preemptible && !s.gang
        && priority - s.priority >= PRIORITY_GAP && !s.cooling
  }

  function VictimOf(s: Listing, place: nat): Victim {
    Victim(s.name, s.priority, s.bytes, s.created, place)
  }

  /** The comparators handed to the sort. */
  predicate Less(o: Order, a: Victim, b: Victim) {
    if o == BySize then a.bytes < b.bytes
    else if a.priority != b.priority then a.priority < b.priority
    else if a.bytes != b.bytes then a.bytes < b.bytes
    else a.created < b.created
  }

  /** What a stable sort makes of them, given the order its input came in. */
  predicate Precedes(o: Order, a: Victim, b: Victim) {
    Less(o, a, b) || (!Less(o, b, a) && CameFirst(o, a, b))
  }

  /** The listing order before the first sort, the rank order before the second. */
  predicate CameFirst(o: Order, a: Victim, b: Victim) {
    if o == ByRank then a.place < b.place else Less(ByRank, a, b) || (!Less(ByRank, b, a) && a.place < b.place)
  }

  predicate Arrived(o: Order, s: seq<Victim>) {
    forall i, j :: 0 <= i < j < |s| ==> CameFirst(o, s[i], s[j])
  }

  predicate Ascending(o: Order, s: seq<Victim>) {
    forall i, j :: 0 <= i < j < |s| ==> Precedes(o, s[i], s[j])
  }

  // ----- Stable sort -----

  lemma PrecedesTransitive(o: Order, a: Victim, b: Victim, c: Victim)
    requires Precedes(o, a, b) && Precedes(o, b, c)
    ensures Precedes(o, a, c)
  {
  }

  method Insert(o: Order, r: seq<Victim>, x: Victim) returns (r': seq<Victim>)
    requires Ascending(o, r) && forall i :: 0 <= i < |r| ==> CameFirst(o, r[i], x)
    ensures Ascending(o, r') && multiset(r') == multiset(r) + multiset{x}
  {
    var k := |r|;
    while 0 < k && Less(o, x, r[k - 1])
      invariant 0 <= k <= |r|
      invariant forall j :: k <= j < |r| ==> Less(o, x, r[j])
    {
      k := k - 1;
    }
    Inserted(o, r, x, k);
    r' := Spliced(r, x, k);
  }

  lemma Inserted(o: Order, r: seq<Victim>, x: Victim, k: nat)
    requires k <= |r| && Ascending(o, r) && (k > 0 ==> Precedes(o, r[k - 1], x))
    requires forall j :: k <= j < |r| ==> Precedes(o, x, r[j])
    ensures Ascending(o, Spliced(r, x, k))
  {
    hide Precedes;
    forall i | 0 <= i < k ensures Precedes(o, r[i], x) {
      if i < k - 1 { PrecedesTransitive(o, r[i], r[k - 1], x); }
    }
    var r' := Spliced(r, x, k);
    forall i, j | 0 <= i < j < |r'| ensures Precedes(o, r'[i], r'[j]) {
      assert i != k && j != k ==> Precedes(o, r[if i < k then i else i - 1], r[if j < k then j else j - 1]);
    }
  }

  method SliceStable(o: Order, s: seq<Victim>) returns (r: seq<Victim>)
    requires Arrived(o, s)
    ensures Ascending(o, r) && multiset(r) == multiset(s)
  {
    r := [];
    for i := 0 to |s|
      invariant Ascending(o, r) && multiset(r) == multiset(s[..i])
    {
      forall j | 0 <= j < |r| ensures CameFirst(o, r[j], s[i]) {
        assert r[j] in multiset(s[..i]);
      }
      r := Insert(o, r, s[i]);
      assert s[..i + 1] == s[..i] + [s[i]];
    }
    assert s[..|s|] == s;
  }

  lemma FirstsAgree(o: Order, a: seq<Victim>, b: seq<Victim>)
    requires a != [] && b != [] && Ascending(o, a) && Ascending(o, b) && a[0] in b && b[0] in a
    ensures a[0] == b[0]
  {
    hide Precedes;
    if a[0] != b[0] {
      var i :| 0 <= i < |b| && b[i] == a[0];
      var j :| 0 <= j < |a| && a[j] == b[0];
      assert Precedes(o, b[0], a[0]) && Precedes(o, a[0], b[0]);
      PrecedesAsymmetric(o, a[0], b[0]);
    }
  }

  lemma PrecedesAsymmetric(o: Order, a: Victim, b: Victim)
    ensures !(Precedes(o, a, b) && Precedes(o, b, a))
  {
  }

  lemma TailsAgree(a: seq<Victim>, b: seq<Victim>)
    requires a != [] && b != [] && a[0] == b[0] && multiset(a) == multiset(b)
    ensures multiset(a[1..]) == multiset(b[1..])
  {
    assert a == [a[0]] + a[1..] && b == [b[0]] + b[1..];
    assert multiset(a[1..]) == multiset(a) - multiset{a[0]};
  }

  /** The order leaves no choice: one arrangement only. */
  lemma {:induction false} OneArrangement(o: Order, a: seq<Victim>, b: seq<Victim>)
    requires Ascending(o, a) && Ascending(o, b) && multiset(a) == multiset(b)
    ensures a == b
    decreases |a|
  {
    assert |multiset(a)| == |a| && |multiset(b)| == |b|;
    if a != [] {
      SameMembers(a, b);
      FirstsAgree(o, a, b);
      TailsAgree(a, b);
      hide Precedes;
      OneArrangement(o, a[1..], b[1..]);
      assert a == [a[0]] + a[1..] && b == [b[0]] + b[1..];
    }
  }

  // ----- Selection -----

  function Total(s: seq<Victim>): int {
    if s == [] then 0 else Total(s[..|s| - 1]) + s[|s| - 1].bytes
  }

  predicate Positive(s: seq<Victim>) { forall i :: 0 <= i < |s| ==> s[i].bytes > 0 }

  lemma {:induction false} TotalGrows(s: seq<Victim>, k: nat)
    requires k <= |s| && Positive(s)
    ensures 0 <= Total(s[..k]) <= Total(s) && (k < |s| ==> s[k].bytes <= Total(s))
    decreases |s|
  {
    if k < |s| {
      var n := |s| - 1;
      TotalGrows(s[..n], if k < n then k else 0);
      assert s[..n][..if k < n then k else 0] == s[..if k < n then k else 0];
      if k == n { TotalGrows(s[..n], n); assert s[..n][..n] == s[..n]; }
    } else {
      assert s[..k] == s;
      if s != [] {
        TotalGrows(s[..k - 1], k - 1);
        assert s[..k - 1][..k - 1] == s[..k - 1];
      }
    }
  }

  lemma TotalTake(s: seq<Victim>, k: nat)
    requires k < |s|
    ensures Total(s[..k + 1]) == Total(s[..k]) + s[k].bytes
  {
    assert s[..k + 1][..k] == s[..k];
  }

  /** One victim of least sufficient size, first in rank among its equals. */
  predicate LeastSingle(eligible: seq<Victim>, need: int, v: Victim) {
    && v in eligible && v.bytes >= need
    && forall c :: c in eligible && c.bytes >= need ==> c == v || Precedes(BySize, v, c)
  }

  /** The shortest sufficient prefix of the rank order. */
  predicate ShortestPrefix(ranked: seq<Victim>, need: int, victims: seq<Victim>) {
    0 < |victims| <= |ranked| && victims == ranked[..|victims|] && Total(victims) >= need
        && Total(ranked[..|victims| - 1]) < need
  }

  ghost predicate Chosen(eligible: seq<Victim>, need: int, plan: Plan) {
    plan.freed == Total(plan.victims) &&
    if exists c :: c in eligible && c.bytes >= need then
      |plan.victims| == 1 && LeastSingle(eligible, need, plan.victims[0])
    else
      exists ranked ::
          Ascending(ByRank, ranked) && multiset(ranked) == multiset(eligible)
          && ShortestPrefix(ranked, need, plan.victims)
  }

  method SmallestSufficient(bySize: seq<Victim>, need: int) returns (k: int)
    requires Ascending(BySize, bySize)
    ensures k == -1 ==> forall c :: c in bySize ==> c.bytes < need
    ensures k != -1 ==> 0 <= k < |bySize| && LeastSingle(bySize, need, bySize[k])
  {
    for i := 0 to |bySize|
      invariant forall j :: 0 <= j < i ==> bySize[j].bytes < need
    {
      if bySize[i].bytes >= need {
        return i;
      }
    }
    k := -1;
  }

  method Accumulate(ranked: seq<Victim>, need: int) returns (plan: Plan)
    requires ranked != [] && need > 0
    ensures plan.freed == Total(plan.victims)
    ensures if plan.freed >= need then ShortestPrefix(ranked, need, plan.victims) else plan.victims == ranked
  {
    plan := Plan([], 0);
    for i := 0 to |ranked|
      invariant plan.victims == ranked[..i] && plan.freed == Total(ranked[..i]) < need
    {
      TotalTake(ranked, i);
      plan := Plan(plan.victims + [ranked[i]], plan.freed + ranked[i].bytes);
      assert plan.victims == ranked[..i + 1];
      if plan.freed >= need {
        return;
      }
    }
  }

  lemma {:induction false} TotalOfSame(a: seq<Victim>, b: seq<Victim>)
    requires multiset(a) == multiset(b)
    ensures Total(a) == Total(b)
    decreases |a|
  {
    if a == [] {
      assert |multiset(b)| == 0;
    } else {
      var n := |a| - 1;
      SameMembers(a, b);
      assert Total(a) == Total(a[..n]) + a[n].bytes;
      assert a[n] in a;
      var k :| 0 <= k < |b| && b[k] == a[n];
      TotalWithout(b, k);
      SameWithout(a, b, k);
      hide Total;
      TotalOfSame(a[..n], b[..k] + b[k + 1..]);
    }
  }

  lemma SameWithout(a: seq<Victim>, b: seq<Victim>, k: nat)
    requires multiset(a) == multiset(b) && a != [] && k < |b| && b[k] == a[|a| - 1]
    ensures multiset(a[..|a| - 1]) == multiset(b[..k] + b[k + 1..])
  {
    assert a == a[..|a| - 1] + [a[|a| - 1]];
    assert b == b[..k] + [b[k]] + b[k + 1..];
    assert multiset(b[..k] + b[k + 1..]) == multiset(b) - multiset{b[k]};
    assert multiset(a[..|a| - 1]) == multiset(a) - multiset{b[k]};
  }

  lemma {:induction false} TotalWithout(b: seq<Victim>, k: nat)
    requires k < |b|
    ensures Total(b) == Total(b[..k] + b[k + 1..]) + b[k].bytes
    decreases |b|
  {
    var n := |b| - 1;
    if k == n {
      assert b[..k] + b[k + 1..] == b[..n];
    } else {
      TotalWithout(b[..n], k);
      var rest := b[..k] + b[k + 1..];
      assert rest[..n - 1] == b[..n][..k] + b[..n][k + 1..] && rest[n - 1] == b[n];
    }
  }

  /** Selection over the eligible victims, in listing order. */
  method SelectVictims(eligible: seq<Victim>, need: int) returns (plan: Option<Plan>)
    requires Positive(eligible) && Arrived(ByRank, eligible)
    ensures plan.None? <==> eligible == [] || Total(eligible) < need
    ensures plan.Some? ==> Chosen(eligible, need, plan.value)
  {
    if eligible == [] {
      return None;
    }
    var ranked := SliceStable(ByRank, eligible);
    hide Ascending, Precedes;
    RankedArrived(ranked);
    var bySize := SliceStable(BySize, ranked);
    SameMembers(ranked, eligible);
    SameMembers(bySize, eligible);
    var k := SmallestSufficient(bySize, need);
    if k != -1 {
      var i :| 0 <= i < |eligible| && eligible[i] == bySize[k];
      TotalGrows(eligible, i);
      assert Total([bySize[k]]) == Total([]) + bySize[k].bytes;
      return Some(Plan([bySize[k]], bySize[k].bytes));
    }
    assert eligible[0] in bySize;
    var p := Accumulate(ranked, need);
    TotalOfSame(ranked, eligible);
    if p.freed < need {
      return None;
    }
    forall i | 0 <= i < |ranked| ensures ranked[i].bytes > 0 { assert ranked[i] in eligible; }
    TotalGrows(ranked, |p.victims|);
    plan := Some(p);
  }

  lemma RankedArrived(s: seq<Victim>)
    requires Ascending(ByRank, s)
    ensures Arrived(BySize, s)
  {
  }

  lemma SameMembers(a: seq<Victim>, b: seq<Victim>)
    requires multiset(a) == multiset(b)
    ensures forall v :: v in a <==> v in b
  {
    assert forall v :: v in a <==> v in multiset(a);
    assert forall v :: v in b <==> v in multiset(b);
  }

  // ----- Candidates and the whole plan -----

  function EligibleOf(slices: seq<Listing>, requester: string, priority: int): (r: seq<Victim>)
    ensures Positive(r) && Arrived(ByRank, r) && forall v :: v in r ==> v.place < |slices|
  {
    if slices == [] then []
    else
      var n := |slices| - 1;
      EligibleOf(slices[..n], requester, priority) + if Eligible(slices[n], requester, priority) then
          [VictimOf(slices[n], n)] else []
  }

  /** A slice may be preempted for a requester at least a hundred priorities above it: another Ready slice with bytes,
      its claim and job readable, preemptible, in no gang and not cooling down. */
  lemma {:induction false} CandidateExactly(slices: seq<Listing>, requester: string, priority: int, v: Victim)
    ensures v in EligibleOf(slices, requester, priority)
       <==> (v.place < |slices|
             && var s := slices[v.place];
                && s.name != requester && s.ready && s.bytes > 0 && s.joined && s.preemptible && !s.gang && !s.cooling
                && s.priority + 100 <= priority
                && v.name == s.name && v.priority == s.priority && v.bytes == s.bytes && v.created == s.created)
  {
    ListedCandidate(slices, requester, priority, v);
    hide EligibleOf;
  }

  lemma {:induction false} ListedCandidate(slices: seq<Listing>, requester: string, priority: int, v: Victim)
    ensures v in EligibleOf(slices, requester, priority)
       <==> (&& v.place < |slices| && Eligible(slices[v.place], requester, priority)
             && v == VictimOf(slices[v.place], v.place))
    decreases |slices|
  {
    hide Eligible, Arrived, Positive, EligibleOf, VictimOf;
    if slices == [] {
      NoCandidates(requester, priority);
    } else {
      var n := |slices| - 1;
      ListedCandidate(slices[..n], requester, priority, v);
      LastCandidate(slices, requester, priority, v);
    }
  }

  lemma NoCandidates(requester: string, priority: int)
    ensures EligibleOf([], requester, priority) == []
  {
  }

  lemma LastCandidate(slices: seq<Listing>, requester: string, priority: int, v: Victim)
    requires slices != []
    ensures var n := |slices| - 1;
            && (v in EligibleOf(slices, requester, priority) <==>
                v in EligibleOf(slices[..n], requester, priority)
                    || (Eligible(slices[n], requester, priority) && v == VictimOf(slices[n], n)))
            && VictimOf(slices[n], n).place == n
  {
    hide Eligible, Arrived, Positive;
  }

  /** The planning core of TryPreempt: the candidate loop, the sorts and the selection. */
  method PlanPreemption(slices: seq<Listing>, requester: string, priority: int, need: int) returns (plan: Option<Plan>)
    ensures var eligible := EligibleOf(slices, requester, priority);
            && (plan.None? <==> eligible == [] || Total(eligible) < need)
            && (plan.Some? ==> Chosen(eligible, need, plan.value))
  {
    var candidates: seq<Victim> := [];
    for i := 0 to |slices|
      invariant candidates == EligibleOf(slices[..i], requester, priority)
    {
      assert slices[..i + 1][..i] == slices[..i];
      if Eligible(slices[i], requester, priority) {
        candidates := candidates + [VictimOf(slices[i], i)];
      }
    }
    assert slices[..|slices|] == slices;
    plan := SelectVictims(candidates, need);
  }

  /** The plan is determined by the eligible victims. */
  lemma PlanUnique(eligible: seq<Victim>, need: int, p: Plan, q: Plan)
    requires Chosen(eligible, need, p) && Chosen(eligible, need, q) && Positive(eligible)
    ensures p == q
  {
    if exists c :: c in eligible && c.bytes >= need {
      PrecedesAsymmetric(BySize, p.victims[0], q.victims[0]);
      assert p.victims == [p.victims[0]] && q.victims == [q.victims[0]];
    } else {
      var a :| Ascending(ByRank, a) && multiset(a) == multiset(eligible) && ShortestPrefix(a, need, p.victims);
      var b :| Ascending(ByRank, b) && multiset(b) == multiset(eligible) && ShortestPrefix(b, need, q.victims);
      OneArrangement(ByRank, a, b);
      SameMembers(a, eligible);
      hide Ascending, Precedes;
      assert forall i :: 0 <= i < |a| ==> a[i] in eligible;
      PrefixUnique(a, need, p.victims, q.victims);
    }
  }

  lemma PrefixUnique(ranked: seq<Victim>, need: int, v: seq<Victim>, w: seq<Victim>)
    requires Positive(ranked) && ShortestPrefix(ranked, need, v) && ShortestPrefix(ranked, need, w)
    ensures v == w
  {
    if |v| < |w| {
      PrefixTotals(ranked, |v|, |w| - 1);
    } else if |w| < |v| {
      PrefixTotals(ranked, |w|, |v| - 1);
    }
  }

  lemma PrefixTotals(ranked: seq<Victim>, i: nat, j: nat)
    requires i <= j <= |ranked| && Positive(ranked)
    ensures Total(ranked[..i]) <= Total(ranked[..j])
  {
    TotalGrows(ranked[..j], i);
    assert ranked[..j][..i] == ranked[..i];
  }

  /** `a` is the cheaper to lose: of lower priority, then fewer bytes, then older, then listed earlier. */
  predicate Cheaper(a: Victim, b: Victim) {
    || a.priority < b.priority
    || (a.priority == b.priority
        && (a.bytes < b.bytes
            || (a.bytes == b.bytes && (a.created < b.created || (a.created == b.created && a.place < b.place)))))
  }

  /** What a plan costs. Where some victim alone is enough, the plan is one of least bytes, the cheapest of these.
      Otherwise it takes victims in the order of their cost, each needed, so that any spared one is dearer than all of
      them, and frees less than twice the need. */
  lemma PlanIsFrugal(eligible: seq<Victim>, need: int, p: Plan)
    requires Chosen(eligible, need, p) && Positive(eligible) && need > 0
    ensures p.freed >= need && p.freed == Total(p.victims) && forall v :: v in p.victims ==> v in eligible
    ensures if exists c :: c in eligible && c.bytes >= need then
              && |p.victims| == 1 && p.freed == p.victims[0].bytes
              && forall c :: c in eligible && c.bytes >= need && c != p.victims[0] ==>
                   p.freed < c.bytes || (p.freed == c.bytes && Cheaper(p.victims[0], c))
            else
              && |p.victims| > 1 && p.freed < 2 * need
              && p.freed - p.victims[|p.victims| - 1].bytes < need
              && (forall i, j :: 0 <= i < j < |p.victims| ==> Cheaper(p.victims[i], p.victims[j]))
              && forall v, c :: v in p.victims && c in eligible && c !in p.victims ==> Cheaper(v, c)
  {
    RankIsCost();
    if exists c :: c in eligible && c.bytes >= need {
      assert p.victims == [p.victims[0]];
      assert Total(p.victims) == Total([]) + p.victims[0].bytes;
      hide Cheaper, CameFirst;
    } else {
      SeveralAreFrugal(eligible, need, p);
    }
  }

  lemma RankIsCost()
    ensures forall a, b :: Precedes(ByRank, a, b) <==> Cheaper(a, b)
    ensures forall a, b :: Precedes(BySize, a, b) <==> a.bytes < b.bytes || (a.bytes == b.bytes && Cheaper(a, b))
  {
  }

  lemma SeveralAreFrugal(eligible: seq<Victim>, need: int, p: Plan)
    requires Chosen(eligible, need, p) && Positive(eligible) && need > 0
    requires forall c :: c in eligible ==> c.bytes < need
    ensures p.freed >= need && |p.victims| > 1 && p.freed < 2 * need && forall v :: v in p.victims ==> v in eligible
    ensures p.freed - p.victims[|p.victims| - 1].bytes < need
    ensures forall i, j :: 0 <= i < j < |p.victims| ==> Cheaper(p.victims[i], p.victims[j])
    ensures forall v, c :: v in p.victims && c in eligible && c !in p.victims ==> Cheaper(v, c)
  {
    RankIsCost();
    hide Precedes, Cheaper;
    var ranked :| Ascending(ByRank, ranked) && multiset(ranked) == multiset(eligible)
        && ShortestPrefix(ranked, need, p.victims);
    SameMembers(ranked, eligible);
    var n := |p.victims| - 1;
    TotalTake(ranked, n);
    assert ranked[n] in eligible;
    assert forall v :: v in p.victims ==> v in ranked;
    assert Total(ranked[..0]) == 0;
  }
}
