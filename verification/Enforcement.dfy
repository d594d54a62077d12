/**
 * Over-use enforcement on a node (internal/nodeagent/enforcement.go, slice_violation.go): streak
 * hysteresis, grace timers, and evictions behind a sliding-window limit whose buffer is compacted in place.
 * Clock readings and the answers of the API are inputs of a cycle.
 */
module Enforcements {
  const SECOND := 1_000_000_000
  const SOFT_GRACE := 60 * SECOND
  const EVICT_GRACE := 120 * SECOND
  const WINDOW := 300 * SECOND
  const MAX_EVICTIONS := 3
  const TOLERANCE := 256 * 1024 * 1024
  const STREAK := 3

  datatype Mode = Off | SoftWarn | Evict

  datatype Outcome = Evicted | Gone | Refused | Error

  /** One pod of an over-using slice: whether its namespace is exempt, the API's answer to an eviction, and the
      readings when the limit is checked, when the API evicts, and when the eviction is recorded. */
  datatype Try = Try(pod: string, exempt: bool, outcome: Outcome, check: int, act: int, recorded: int)

  /** One slice of a cycle; `began`, `soft` and `hard` are the readings for the timer and the two deadlines. */
  datatype Usage = Usage(key: string, used: int, grant: int, pods: seq<Try>, began: int, soft: int, hard: int)

  datatype Eviction = Eviction(key: string, pod: string, check: int, act: int, recorded: int)

  datatype State = State(streak: map<string, nat>, active: map<string, bool>, start: map<string, int>,
      enforced: set<string>,
                         handled: set<string>, times: seq<int>)

  const Initial := State(map[], map[], map[], {}, {}, [])

  datatype Out = Out(state: State, evictions: seq<Eviction>)

  predicate Over(u: Usage) { u.used - u.grant > TOLERANCE }

  function StreakAfter(streak: map<string, nat>, u: Usage): nat {
    if Over(u) then (if u.key in streak then streak[u.key] else 0) + 1 else 0
  }

  function Evaluated(s: State, u: Usage): State {
    var n := StreakAfter(s.streak, u);
    s.(streak := s.streak[u.key := n], active := s.active[u.key := n >= STREAK])
  }

  /** The eviction times after the cutoff. */
  function Kept(times: seq<int>, cutoff: int): seq<int> {
    if times == [] then []
    else
      var n := |times| - 1;
      Kept(times[..n], cutoff) + if times[n] > cutoff then [times[n]] else []
  }

  function Tried(s: State, key: string, p: Try): Out {
    if p.pod in s.handled || p.exempt then Out(s, [])
    else
      var s' := s.(times := Kept(s.times, p.check - WINDOW));
      if |s'.times| >= MAX_EVICTIONS then Out(s', [])
      else match p.outcome
        case Evicted => Out(s'.(handled := s.handled + {p.pod}, times := s'.times + [p.recorded]),
                            [Eviction(key, p.pod, p.check, p.act, p.recorded)])
        case Gone => Out(s'.(handled := s.handled + {p.pod}), [])
        case _ => Out(s', [])
  }

  function TriedAll(s: State, key: string, pods: seq<Try>): Out {
    if pods == [] then Out(s, [])
    else
      var n := |pods| - 1;
      var before := TriedAll(s, key, pods[..n]);
      var last := Tried(before.state, key, pods[n]);
      Out(last.state, before.evictions + last.evictions)
  }

  function StartAfter(start: map<string, int>, u: Usage): int {
    if u.key in start then start[u.key] else u.began
  }

  function Enforced(mode: Mode, s: State, u: Usage, violating: bool): Out {
    if mode == Off then Out(s, [])
    else if !violating then Out(s.(enforced := s.enforced - {u.key}, start := s.start - {u.key}), [])
    else
      var t := StartAfter(s.start, u);
      var s' := s.(start := s.start[u.key := t]);
      if u.soft < t + SOFT_GRACE then Out(s', [])
      else
        var s'' := s'.(enforced := s.enforced + {u.key});
        if mode == Evict && u.hard >= t + SOFT_GRACE + EVICT_GRACE then TriedAll(s'', u.key, u.pods) else Out(s'', [])
  }

  function Handled(mode: Mode, s: State, u: Usage): Out {
    var s' := Evaluated(s, u);
    Enforced(mode, s', u, s'.streak[u.key] >= STREAK)
  }

  function HandledAll(mode: Mode, s: State, us: seq<Usage>): Out {
    if us == [] then Out(s, [])
    else
      var n := |us| - 1;
      var before := HandledAll(mode, s, us[..n]);
      var last := Handled(mode, before.state, us[n]);
      Out(last.state, before.evictions + last.evictions)
  }

  function SeenKeys(us: seq<Usage>): set<string> { set u | u in us :: u.key }

  function SeenPods(us: seq<Usage>): set<string> { set u, p | u in us && p in u.pods :: p.pod }

  function Only<V>(m: map<string, V>, keep: set<string>): map<string, V> {
    map k | k in m && k in keep :: m[k]
  }

  function Pruned(s: State, keys: set<string>, pods: set<string>): State {
    State(Only(s.streak, keys), Only(s.active, keys), Only(s.start, keys), s.enforced * keys, s.handled * pods, s.times)
  }

  /** One completed detection cycle. */
  function Cycle(mode: Mode, s: State, us: seq<Usage>): Out {
    var o := HandledAll(mode, s, us);
    Out(Pruned(o.state, SeenKeys(us), SeenPods(us)), o.evictions)
  }
}

module EnforcementClass {
  import opened Enforcements

  lemma KeptTake(s: seq<int>, r: nat, cutoff: int)
    requires r < |s|
    ensures Kept(s[..r + 1], cutoff) == Kept(s[..r], cutoff) + if s[r] > cutoff then [s[r]] else []
  {
    assert s[..r + 1][..r] == s[..r];
  }

  method KeepOnly<V>(m: map<string, V>, seen: set<string>) returns (r: map<string, V>)
    ensures r == Only(m, seen)
  {
    r := m;
    var todo := m.Keys;
    while todo != {}
      invariant todo <= m.Keys && r.Keys <= m.Keys
      invariant forall k :: k in r ==> r[k] == m[k]
      invariant forall k :: k in m ==> (k in r <==> k in todo || k in seen)
      decreases |todo|
    {
      var k :| k in todo;
      todo := todo - {k};
      if k !in seen {
        r := r - {k};
      }
    }
  }

  class Detector {
    const mode: Mode
    var streak: map<string, nat>
    var active: map<string, bool>
    var violationStart: map<string, int>
    var enforced: set<string>
    var evictHandled: set<string>
    var evictionTimes: array<int>
    var count: nat

    ghost predicate Valid()
      reads this, evictionTimes
    {
      count <= evictionTimes.Length && active.Keys == streak.Keys
    }

    ghost function Times(): seq<int>
      requires count <= evictionTimes.Length
      reads this, evictionTimes
    {
      evictionTimes[..count]
    }

    ghost function View(): State
      requires count <= evictionTimes.Length
      reads this, evictionTimes
    {
      State(streak, active, violationStart, enforced, evictHandled, Times())
    }

    constructor (mode: Mode)
      ensures Valid() && this.mode == mode && View() == Initial && fresh(evictionTimes)
    {
      this.mode := mode;
      streak, active, violationStart, enforced, evictHandled, count := map[], map[], map[], {}, {}, 0;
      evictionTimes := new int[0];
    }

    method Evaluate(u: Usage) returns (onset: bool, cleared: bool, excess: int, violating: bool)
      requires Valid()
      modifies this`streak, this`active
      ensures Valid() && View() == Evaluated(old(View()), u)
      ensures violating == active[u.key] == (streak[u.key] >= STREAK)
      ensures excess == if u.used > u.grant then u.used - u.grant else 0
      ensures (onset <==> violating && !(u.key in old(active) && old(active)[u.key]))
           && (cleared <==> !violating && u.key in old(active) && old(active)[u.key])
    {
      excess := if u.used > u.grant then u.used - u.grant else 0;
      if u.used - u.grant > TOLERANCE {
        streak := streak[u.key := (if u.key in streak then streak[u.key] else 0) + 1];
      } else {
        streak := streak[u.key := 0];
      }
      violating := streak[u.key] >= STREAK;
      var was := u.key in active && active[u.key];
      active := active[u.key := violating];
      onset, cleared := violating && !was, !violating && was;
    }

    /** Prunes the buffer in place: reads run ahead of writes in the same array. */
    method EvictionAllowed(now: int) returns (ok: bool)
      requires Valid()
      modifies this`count, evictionTimes
      ensures Valid() && Times() == Kept(old(Times()), now - WINDOW) && ok == (|Times()| < MAX_EVICTIONS)
    {
      var cutoff := now - WINDOW;
      ghost var was := evictionTimes[..count];
      var w := 0;
      for r := 0 to count
        invariant w <= r <= count == |was| && count == old(count) <= evictionTimes.Length
        invariant evictionTimes[..w] == Kept(was[..r], cutoff)
        invariant forall j :: r <= j < count ==> evictionTimes[j] == was[j]
      {
        KeptTake(was, r, cutoff);
        var t := evictionTimes[r];
        if t > cutoff {
          evictionTimes[w] := t;
          w := w + 1;
        }
      }
      assert was[..count] == was;
      count := w;
      ok := count < MAX_EVICTIONS;
    }

    method RecordEvictionTime(now: int)
      requires Valid()
      modifies this`count, this`evictionTimes, evictionTimes
      ensures Valid() && Times() == old(Times()) + [now]
      ensures evictionTimes == old(evictionTimes) || fresh(evictionTimes)
    {
      if count == evictionTimes.Length {
        var bigger := new int[2 * count + 1];
        for i := 0 to count
          invariant count == old(count) <= evictionTimes.Length && evictionTimes == old(evictionTimes)
          invariant Times() == old(Times())
          invariant bigger[..i] == evictionTimes[..i]
        {
          bigger[i] := evictionTimes[i];
        }
        evictionTimes := bigger;
      }
      evictionTimes[count] := now;
      count := count + 1;
    }

    method TryEvict(key: string, p: Try) returns (evicted: seq<Eviction>)
      requires Valid()
      modifies this`count, this`evictionTimes, this`evictHandled, evictionTimes
      ensures Valid() && Out(View(), evicted) == Tried(old(View()), key, p)
      ensures evictionTimes == old(evictionTimes) || fresh(evictionTimes)
    {
      hide Kept;
      evicted := [];
      if p.pod in evictHandled {
        return;
      }
      if p.exempt {
        return;
      }
      var ok := EvictionAllowed(p.check);
      if !ok {
        return;
      }
      match p.outcome
      case Gone => evictHandled := evictHandled + {p.pod};
      case Refused =>
      case Error =>
      case Evicted =>
        evictHandled := evictHandled + {p.pod};
        RecordEvictionTime(p.recorded);
        evicted := [Eviction(key, p.pod, p.check, p.act, p.recorded)];
    }

    method MaybeEvict(key: string, pods: seq<Try>) returns (evicted: seq<Eviction>)
      requires Valid()
      modifies this`count, this`evictionTimes, this`evictHandled, evictionTimes
      ensures Valid() && Out(View(), evicted) == TriedAll(old(View()), key, pods)
      ensures evictionTimes == old(evictionTimes) || fresh(evictionTimes)
    {
      evicted := [];
      for i := 0 to |pods|
        invariant Valid() && Out(View(), evicted) == TriedAll(old(View()), key, pods[..i])
        invariant evictionTimes == old(evictionTimes) || fresh(evictionTimes)
      {
        assert pods[..i + 1][..i] == pods[..i];
        var more := TryEvict(key, pods[i]);
        evicted := evicted + more;
      }
      assert pods[..|pods|] == pods;
    }

    method Enforce(u: Usage, violating: bool) returns (evicted: seq<Eviction>)
      requires Valid()
      modifies this`violationStart, this`enforced, this`count, this`evictionTimes, this`evictHandled, evictionTimes
      ensures Valid() && Out(View(), evicted) == Enforced(mode, old(View()), u, violating)
      ensures evictionTimes == old(evictionTimes) || fresh(evictionTimes)
    {
      hide TriedAll;
      evicted := [];
      if mode == Off {
        return;
      }
      if !violating {
        if u.key in enforced {
          enforced := enforced - {u.key};
        }
        violationStart := violationStart - {u.key};
        return;
      }
      var start := u.began;
      if u.key in violationStart {
        start := violationStart[u.key];
      } else {
        violationStart := violationStart[u.key := start];
      }
      assert violationStart == old(violationStart)[u.key := start];
      if u.soft < start + SOFT_GRACE {
        return;
      }
      if u.key !in enforced {
        enforced := enforced + {u.key};
      }
      assert enforced == old(enforced) + {u.key};
      if mode == Evict && u.hard >= start + (SOFT_GRACE + EVICT_GRACE) {
        evicted := MaybeEvict(u.key, u.pods);
      }
    }

    method DetectOnce(us: seq<Usage>) returns (evicted: seq<Eviction>)
      requires Valid()
      modifies this, evictionTimes
      ensures Valid() && Out(View(), evicted) == Cycle(mode, old(View()), us)
    {
      hide Evaluated, Enforced, Pruned;
      evicted := [];
      var seen: set<string>, seenPods: set<string> := {}, {};
      for i := 0 to |us|
        invariant Valid() && Out(View(), evicted) == HandledAll(mode, old(View()), us[..i])
        invariant evictionTimes == old(evictionTimes) || fresh(evictionTimes)
        invariant seen == SeenKeys(us[..i]) && seenPods == SeenPods(us[..i])
      {
        assert us[..i + 1][..i] == us[..i];
        SeenTake(us, i);
        seen := seen + {us[i].key};
        seenPods := seenPods + set p | p in us[i].pods :: p.pod;
        var onset, cleared, excess, violating := Evaluate(us[i]);
        var more := Enforce(us[i], violating);
        evicted := evicted + more;
      }
      assert us[..|us|] == us;
      Prune(seen, seenPods);
    }

    /** Forgets slices and pods the cycle did not see. */
    method Prune(seen: set<string>, seenPods: set<string>)
      requires Valid()
      modifies this`streak, this`active, this`violationStart, this`enforced, this`evictHandled
      ensures Valid() && View() == Pruned(old(View()), seen, seenPods)
    {
      streak := KeepOnly(streak, seen);
      active := KeepOnly(active, seen);
      violationStart := KeepOnly(violationStart, seen);
      enforced := enforced * seen;
      evictHandled := evictHandled * seenPods;
    }
  }

  lemma SeenTake(us: seq<Usage>, i: nat)
    requires i < |us|
    ensures SeenKeys(us[..i + 1]) == SeenKeys(us[..i]) + {us[i].key}
    ensures SeenPods(us[..i + 1]) == SeenPods(us[..i]) + set p | p in us[i].pods :: p.pod
  {
    assert us[..i + 1] == us[..i] + [us[i]];
  }
}
