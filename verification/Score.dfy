/** Node scoring: bin packing, fragmentation penalty, tier and topology zone. */
module Scores {
  import opened Sequences
  import opened VRAMCaches
  import opened VRAMCacheClass

  const SCORE_WEIGHT := 80_000_000_000
  const FRAGMENT_THRESHOLD := 4_000_000_000
  const FRAGMENT_PENALTY := 5_000_000_000
  const ZONE_BONUS := 1_000_000_000_000
  const BEST_EFFORT_PENALTY := 1_000_000_000

  datatype NodeScore = NodeScore(node: string, total: int)

  function Fragments(n: NodeState, bytes: int): bool {
    0 < n.free - bytes < FRAGMENT_THRESHOLD
  }

  predicate InZone(n: NodeState, zone: string) {
    zone != "" && n.zone == zone
  }

  function Total(n: NodeState, bytes: int, bestEffort: bool, zone: string): int {
    SCORE_WEIGHT - (n.free - bytes)
    + (if Fragments(n, bytes) then -FRAGMENT_PENALTY else 0)
    + (if InZone(n, zone) then ZONE_BONUS else 0)
    - (if bestEffort then BEST_EFFORT_PENALTY else 0)
  }

  function ScoreOf(nodes: map<string, NodeState>, name: string, bytes: int, bestEffort: bool, zone: string): NodeScore
    requires name in nodes
  {
    NodeScore(name, Total(nodes[name], bytes, bestEffort, zone))
  }

  predicate Descending(s: seq<NodeScore>) {
    forall i, j :: 0 <= i < j < |s| ==> s[i].total >= s[j].total
  }

  method Insert(r: seq<NodeScore>, x: NodeScore) returns (r': seq<NodeScore>)
    requires Descending(r)
    ensures Descending(r') && multiset(r') == multiset(r) + multiset{x}
  {
    var k := |r|;
    while 0 < k && r[k - 1].total < x.total
      invariant 0 <= k <= |r|
      invariant forall j :: k <= j < |r| ==> r[j].total < x.total
    {
      k := k - 1;
    }
    InsertedDescending(r, x, k);
    hide Descending;
    r' := Spliced(r, x, k);
  }

  lemma InsertedDescending(r: seq<NodeScore>, x: NodeScore, k: nat)
    requires k <= |r| && Descending(r) && (k > 0 ==> r[k - 1].total >= x.total)
    requires forall j :: k <= j < |r| ==> r[j].total < x.total
    ensures Descending(Spliced(r, x, k))
  {
    var r' := Spliced(r, x, k);
    forall i, j | 0 <= i < j < |r'| ensures r'[i].total >= r'[j].total {
      assert i < k ==> r[i].total >= r[k - 1].total;
      assert i != k && j != k ==> r[if i < k then i else i - 1].total >= r[if j < k then j else j - 1].total;
    }
  }

  /** Best score first; equal scores in no promised order. */
  method SortScores(s: seq<NodeScore>) returns (r: seq<NodeScore>)
    ensures Descending(r) && multiset(r) == multiset(s)
  {
    r := [];
    for i := 0 to |s|
      invariant Descending(r) && multiset(r) == multiset(s[..i])
    {
      r := Insert(r, s[i]);
      assert s[..i + 1] == s[..i] + [s[i]];
    }
    assert s[..|s|] == s;
  }

  method ScoreWithTopology(cache: VRAMCache, valid: seq<string>, bytes: int, bestEffort: bool, zone: string)
    returns (scores: seq<NodeScore>)
    ensures Descending(scores)
    ensures forall x :: x in scores <==>
      exists i :: 0 <= i < |valid| && valid[i] in cache.nodes
          && x == ScoreOf(cache.nodes, valid[i], bytes, bestEffort, zone)
  {
    var unsorted: seq<NodeScore> := [];
    for i := 0 to |valid|
      invariant forall x :: x in unsorted <==>
        exists j :: 0 <= j < i && valid[j] in cache.nodes
            && x == ScoreOf(cache.nodes, valid[j], bytes, bestEffort, zone)
    {
      if valid[i] in cache.nodes {
        var n := cache.nodes[valid[i]];
        var leftover := n.free - bytes;
        var total := SCORE_WEIGHT - leftover;
        if leftover > 0 && leftover < FRAGMENT_THRESHOLD { total := total - FRAGMENT_PENALTY; }
        if zone != "" && n.zone == zone { total := total + ZONE_BONUS; }
        if bestEffort { total := total - BEST_EFFORT_PENALTY; }
        unsorted := unsorted + [NodeScore(valid[i], total)];
      }
    }
    scores := SortScores(unsorted);
    forall x ensures x in scores <==> x in unsorted {
      assert x in multiset(scores) <==> x in multiset(unsorted);
    }
  }

  /** Whether the slice would leave the node a sliver of less than four gigabytes. */
  predicate LeavesSliver(n: NodeState, bytes: int) {
    0 < n.free - bytes < 4_000_000_000
  }

  /** Free bytes, five gigabytes more for a node that would be left a sliver, a thousand less in the zone. */
  function Cost(n: NodeState, bytes: int, zone: string): int {
    n.free + (if LeavesSliver(n, bytes) then 5_000_000_000 else 0)
    - (if zone != "" && n.zone == zone then 1_000_000_000_000 else 0)
  }

  /** The score ranks nodes by cost alone. */
  lemma RanksByCost(a: NodeState, b: NodeState, bytes: int, bestEffort: bool, zone: string)
    ensures Total(a, bytes, bestEffort, zone) > Total(b, bytes, bestEffort, zone)
        <==> Cost(a, bytes, zone) < Cost(b, bytes, zone)
  {
  }

  /** Of two nodes both in the zone or both out of it, the tighter outranks the other, unless it alone would be left a
      sliver: then only if it is tighter by more than five gigabytes. */
  lemma TighterOutranksExactly(a: NodeState, b: NodeState, bytes: int, bestEffort: bool, zone: string)
    requires zone == "" || (a.zone == zone <==> b.zone == zone)
    ensures Total(a, bytes, bestEffort, zone) > Total(b, bytes, bestEffort, zone)
        <==> if LeavesSliver(a, bytes) == LeavesSliver(b, bytes) then a.free < b.free
             else if LeavesSliver(a, bytes) then b.free - a.free > 5_000_000_000
             else a.free - b.free < 5_000_000_000
  {
    RanksByCost(a, b, bytes, bestEffort, zone);
  }

  /** Among nodes that fit, an in-zone node outranks an out-of-zone node if and only if its free bytes exceed
      the other's by less than a thousand gigabytes, plus five when only the other would be left a sliver. */
  lemma ZoneOutranksExactly(a: NodeState, b: NodeState, bytes: int, bestEffort: bool, zone: string)
    requires bytes <= a.free && bytes <= b.free && zone != "" && a.zone == zone && b.zone != zone
    ensures Total(a, bytes, bestEffort, zone) > Total(b, bytes, bestEffort, zone)
        <==> a.free - b.free < 1_000_000_000_000 + (if LeavesSliver(b, bytes) then 5_000_000_000 else 0)
    ensures a.free - b.free < 1_000_000_000_000
        ==> Total(a, bytes, bestEffort, zone) > Total(b, bytes, bestEffort, zone)
  {
  }

  /** Whichever of several equal scores comes first, an in-zone node that fits is chosen over every out-of-zone
      node it is not a whole bonus emptier than. */
  lemma WinnerHonorsZone(nodes: map<string, NodeState>, scores: seq<NodeScore>, a: string, bytes: int,
      bestEffort: bool, zone: string)
    requires Descending(scores) && a in nodes && zone != "" && nodes[a].zone == zone && bytes <= nodes[a].free
    requires ScoreOf(nodes, a, bytes, bestEffort, zone) in scores
    requires scores[0].node in nodes && bytes <= nodes[scores[0].node].free
             && scores[0] == ScoreOf(nodes, scores[0].node, bytes, bestEffort, zone)
    requires nodes[a].free - nodes[scores[0].node].free < 1_000_000_000_000
    ensures nodes[scores[0].node].zone == zone
  {
    var i :| 0 <= i < |scores| && scores[i] == ScoreOf(nodes, a, bytes, bestEffort, zone);
    assert scores[0].total >= scores[i].total;
    if nodes[scores[0].node].zone != zone {
      ZoneOutranksExactly(nodes[a], nodes[scores[0].node], bytes, bestEffort, zone);
    }
  }
}
