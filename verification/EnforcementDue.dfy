/**
 * What enforcement does not fail to do, over every run of completed cycles: a slice counts as violating after three
 * cycles over, is soft-enforced after a minute of it, and in evict mode loses its pods after three.
 */
module EnforcementDue {
  import opened Enforcements
  import opened EnforcementSafety

  // ----- Streaks -----

  lemma {:induction false} StreakReaches(mode: Mode, run: seq<seq<Usage>>, clock: int, key: string, n: nat)
    requires RunOk(run, clock) && 0 < n && StreakOk(run, key, n)
    ensures var s := After(mode, run).state; key in s.streak && s.streak[key] >= n
    decreases |run|
  {
    hide CycleOk, HandledAll;
    var m := |run| - 1;
    var rest, us := run[..m], run[m];
    assert SawOver(run[m], key);
    var i :| 0 <= i < |us| && us[i].key == key && us[i].used > us[i].grant + 256 * 1024 * 1024;
    SeenKey(mode, After(mode, rest).state, us, i);
    assert us[i] in us && key in SeenKeys(us);
    if n > 1 {
      assert StreakOk(rest, key, n - 1) by {
        forall j | m - (n - 1) <= j < m ensures SawOver(rest[j], key) { assert SawOver(run[j], key); }
      }
      StreakReaches(mode, rest, clock, key, n - 1);
    }
  }

  /** The streak of a slice is how many of the last completed cycles in a row saw it over. */
  lemma StreakExactly(mode: Mode, run: seq<seq<Usage>>, clock: int, key: string, n: nat)
    requires RunOk(run, clock) && 0 < n
    ensures var s := After(mode, run).state; StreakOk(run, key, n) <==> key in s.streak && s.streak[key] >= n
  {
    hide After, RunOk;
    RunKeepsTimers(mode, run, clock);
    if StreakOk(run, key, n) { StreakReaches(mode, run, clock, key, n); }
  }

  predicate ActiveOk(s: State) {
    s.active.Keys == s.streak.Keys && forall key :: key in s.active ==> (s.active[key] <==> s.streak[key] >= STREAK)
  }

  lemma {:induction false} CycleKeepsActive(mode: Mode, s: State, us: seq<Usage>)
    requires ActiveOk(s)
    ensures ActiveOk(HandledAll(mode, s, us).state)
    decreases |us|
  {
    if us != [] {
      var n := |us| - 1;
      hide Handled;
      CycleKeepsActive(mode, s, us[..n]);
      HandledTimers(mode, HandledAll(mode, s, us[..n]).state, us[n]);
    }
  }

  lemma {:induction false} RunKeepsActive(mode: Mode, run: seq<seq<Usage>>)
    ensures ActiveOk(After(mode, run).state)
    decreases |run|
  {
    if run != [] {
      var n := |run| - 1;
      hide HandledAll;
      RunKeepsActive(mode, run[..n]);
      CycleKeepsActive(mode, After(mode, run[..n]).state, run[n]);
    }
  }

  /** A slice counts as violating exactly when each of the last three completed cycles saw it over. */
  lemma HysteresisExactly(mode: Mode, run: seq<seq<Usage>>, clock: int, key: string)
    requires RunOk(run, clock)
    ensures var active := After(mode, run).state.active; key in active && active[key] <==> StreakOk(run, key, 3)
  {
    StreakExactly(mode, run, clock, key, 3);
    RunKeepsActive(mode, run);
    hide After, RunOk, StreakOk;
  }

  // ----- Timers -----

  predicate Past(s: State, clock: int) { forall key :: key in s.start ==> s.start[key] <= clock }

  lemma {:induction false} CycleForward(us: seq<Usage>, clock: int, i: nat)
    requires CycleOk(us, clock) && i < |us|
    ensures clock <= us[i].began <= CycleEnd(us, clock)
    decreases |us|
  {
    var n := |us| - 1;
    TriesForward(us[n].pods, us[n].hard);
    if i < n {
      CycleForward(us[..n], clock, i);
    } else if n > 0 {
      CycleForward(us[..n], clock, n - 1);
    }
  }

  lemma {:induction false} RunKeepsPast(mode: Mode, run: seq<seq<Usage>>, clock: int)
    requires RunOk(run, clock)
    ensures Past(After(mode, run).state, RunEnd(run, clock))
    decreases |run|
  {
    if run != [] {
      var n := |run| - 1;
      var us, s := run[n], After(mode, run[..n]).state;
      RunKeepsPast(mode, run[..n], clock);
      hide HandledAll, CycleOk, CycleEnd;
      var s' := After(mode, run).state;
      if mode == Off {
        RunKeepsTimers(mode, run, clock);
      } else {
        forall key | key in s'.start ensures s'.start[key] <= RunEnd(run, clock) {
          var i := IndexOf(us, key);
          SeenKey(mode, s, us, i);
          CycleForward(us, RunEnd(run[..n], clock), i);
        }
      }
    }
  }

  /** A slice over from two cycles before cycle `k` on has its timer running from cycle `k` or before. */
  lemma {:induction false} TimerRuns(mode: Mode, run: seq<seq<Usage>>, clock: int, key: string, start: int, k: int)
    requires RunOk(run, clock) && mode != Off && Sustained(run, key, start, k)
    ensures var s := After(mode, run).state; key in s.start && s.start[key] <= start
    decreases |run|
  {
    var n := |run| - 1;
    var rest, us := run[..n], run[n];
    var s := After(mode, rest).state;
    OverAtEnd(mode, run, us, clock, key, k);
    RunKeepsPast(mode, rest, clock);
    if k < n {
      assert Sustained(rest, key, start, k) by {
        forall j | k - 2 <= j < n ensures SawOver(rest[j], key) { assert SawOver(run[j], key); }
      }
      TimerRuns(mode, rest, clock, key, start, k);
    }
    hide HandledAll, CycleOk;
    assert SawAt(run[k], key, start);
    var i :| 0 <= i < |us| && us[i].key == key && (k == n ==> us[i].began == start);
    SeenKey(mode, s, us, i);
    assert us[i] in us && key in SeenKeys(us);
    CycleForward(us, RunEnd(rest, clock), i);
  }

  /** Over in three cycles in a row up to the last, the slice is on a streak of three. */
  lemma OverAtEnd(mode: Mode, run: seq<seq<Usage>>, us: seq<Usage>, clock: int, key: string, k: int)
    requires RunOk(run, clock) && 2 <= k < |run| && forall j :: k - 2 <= j < |run| ==> SawOver(run[j], key)
    requires us == run[|run| - 1]
    ensures exists i :: 0 <= i < |us| && us[i].key == key
    ensures forall i :: 0 <= i < |us| && us[i].key == key ==>
              StreakAfter(After(mode, run[..|run| - 1]).state.streak, us[i]) >= STREAK
  {
    var n := |run| - 1;
    assert SawOver(run[n], key);
    assert StreakOk(run, key, 3);
    StreakReaches(mode, run, clock, key, 3);
    hide HandledAll, CycleOk;
    forall i | 0 <= i < |us| && us[i].key == key
      ensures StreakAfter(After(mode, run[..n]).state.streak, us[i]) >= STREAK
    {
      SeenKey(mode, After(mode, run[..n]).state, us, i);
      assert us[i] in us;
    }
  }

  // ----- Soft enforcement -----

  predicate SoftAt(us: seq<Usage>, key: string, time: int) {
    exists i :: 0 <= i < |us| && us[i].key == key && us[i].soft >= time
  }

  /** The slice has been over since two cycles before cycle `k`, and cycle `j` came a minute after cycle `k`. */
  predicate SoftSince(run: seq<seq<Usage>>, key: string, start: int, k: int, j: int) {
    Sustained(run, key, start, k) && k <= j < |run| && SoftAt(run[j], key, start + 60 * SECOND)
  }

  lemma {:induction false} SoftFallsDue(mode: Mode, run: seq<seq<Usage>>, clock: int, key: string, start: int, k: int,
      j: int)
    requires RunOk(run, clock) && mode != Off && SoftSince(run, key, start, k, j)
    ensures key in After(mode, run).state.enforced
    decreases |run|
  {
    var n := |run| - 1;
    var rest, us := run[..n], run[n];
    OverAtEnd(mode, run, us, clock, key, k);
    TimerRuns(mode, run, clock, key, start, k);
    if j < n {
      assert Sustained(rest, key, start, k) by {
        forall m | k - 2 <= m < n ensures SawOver(rest[m], key) { assert SawOver(run[m], key); }
      }
      assert SoftSince(rest, key, start, k, j);
      SoftFallsDue(mode, rest, clock, key, start, k, j);
    }
    hide HandledAll, CycleOk, Sustained;
    assert SoftAt(run[j], key, start + 60 * SECOND);
    var i :| 0 <= i < |us| && us[i].key == key && (j == n ==> us[i].soft >= start + 60 * SECOND);
    SeenKey(mode, After(mode, rest).state, us, i);
    assert us[i] in us && key in SeenKeys(us);
  }

  /** What the enforced slices of a run rest on. */
  ghost predicate SoftEarned(mode: Mode, s: State, run: seq<seq<Usage>>) {
    forall key :: key in s.enforced ==> key in s.start && exists k, j :: SoftSince(run, key, s.start[key], k, j)
  }

  lemma SoftEarnedOn(mode: Mode, s: State, rest: seq<seq<Usage>>, us: seq<Usage>, key: string)
    requires mode != Off && SoftEarned(mode, s, rest) && Timers(mode, s, rest) && Distinct(us)
    requires key in Cycle(mode, s, us).state.enforced
    ensures var s' := Cycle(mode, s, us).state;
            key in s'.start && exists k, j :: SoftSince(rest + [us], key, s'.start[key], k, j)
  {
    hide HandledAll, Sustained, StreakOk, SoftSince, SoftAt;
    var s' := Cycle(mode, s, us).state;
    var i := IndexOf(us, key);
    SeenKey(mode, s, us, i);
    var k := TimerSustained(rest, s, us, i);
    if key in s.enforced {
      var k0, j :| SoftSince(rest, key, s.start[key], k0, j);
      SoftLater(rest, us, key, s.start[key], k0, j, k);
    } else {
      SoftNow(rest, us, key, s'.start[key], k, i);
    }
  }

  lemma SoftNow(rest: seq<seq<Usage>>, us: seq<Usage>, key: string, start: int, k: int, i: nat)
    requires Sustained(rest + [us], key, start, k) && i < |us| && us[i].key == key && us[i].soft >= start + 60 * SECOND
    ensures SoftSince(rest + [us], key, start, k, |rest|)
  {
    assert (rest + [us])[|rest|] == us;
  }

  lemma {:induction false} RunKeepsSoft(mode: Mode, run: seq<seq<Usage>>, clock: int)
    requires RunOk(run, clock) && mode != Off
    ensures SoftEarned(mode, After(mode, run).state, run)
    decreases |run|
  {
    if run != [] {
      var n := |run| - 1;
      RunKeepsTimers(mode, run[..n], clock);
      RunKeepsSoft(mode, run[..n], clock);
      hide CycleOk, Cycle, Timers, SoftEarned, SoftSince;
      assert run == run[..n] + [run[n]];
      var s' := After(mode, run).state;
      forall key | key in s'.enforced
        ensures key in s'.start && exists k, j :: SoftSince(run, key, s'.start[key], k, j)
      {
        SoftEarnedOn(mode, After(mode, run[..n]).state, run[..n], run[n], key);
      }
      SoftCollected(mode, s', run);
    }
  }

  lemma SoftCollected(mode: Mode, s: State, run: seq<seq<Usage>>)
    requires forall key ::
        key in s.enforced ==> key in s.start && exists k, j :: SoftSince(run, key, s.start[key], k, j)
    ensures SoftEarned(mode, s, run)
  {
  }

  lemma SoftLater(rest: seq<seq<Usage>>, us: seq<Usage>, key: string, start: int, k0: int, j: int, k: int)
    requires SoftSince(rest, key, start, k0, j) && Sustained(rest + [us], key, start, k)
    ensures exists k, j :: SoftSince(rest + [us], key, start, k, j)
  {
    var run := rest + [us];
    assert SawOver(run[|rest|], key);
    assert run[k0] == rest[k0] && run[j] == rest[j];
    forall m | k0 - 2 <= m < |run| ensures SawOver(run[m], key) {
      if m < |rest| { assert run[m] == rest[m]; }
    }
    assert SoftSince(run, key, start, k0, j);
  }

  /** Soft enforcement engages, and stays, exactly for a slice over in every completed cycle since two before its timer
      started, at least a minute after that start. */
  lemma SoftExactly(mode: Mode, run: seq<seq<Usage>>, clock: int, key: string)
    requires RunOk(run, clock) && mode != Off
    ensures key in After(mode, run).state.enforced <==> exists start, k, j :: SoftSince(run, key, start, k, j)
  {
    hide After, RunOk;
    if key in After(mode, run).state.enforced {
      RunKeepsSoft(mode, run, clock);
      var k, j :| SoftSince(run, key, After(mode, run).state.start[key], k, j);
    }
    if start, k, j :| SoftSince(run, key, start, k, j) {
      SoftFallsDue(mode, run, clock, key, start, k, j);
    }
  }

  // ----- Eviction -----

  predicate Granted(p: Try) { !p.exempt && p.outcome == Evicted }

  /** Three evictions lie in the five minutes before `time`. */
  ghost predicate Full(log: seq<Eviction>, time: int) {
    exists n :: FullAt(log, time, n)
  }

  /** The evictions before the `n`th, counting from one, are the last three up to `time`. */
  predicate FullAt(log: seq<Eviction>, time: int, n: int) {
    3 <= n <= |log| && log[n - 3].recorded > time - 300 * SECOND && log[n - 1].recorded <= time
  }

  predicate EvictedPod(log: seq<Eviction>, pod: string) { exists e :: e in log && e.pod == pod }

  predicate FoundGone(pods: seq<Try>, pod: string) { exists q :: q in pods && q.pod == pod && q.outcome == Gone }

  predicate GoneInCycle(us: seq<Usage>, pod: string) { exists i :: 0 <= i < |us| && FoundGone(us[i].pods, pod) }

  lemma FullGrows(log: seq<Eviction>, more: seq<Eviction>, time: int)
    requires Full(log, time)
    ensures Full(log + more, time)
  {
    var n :| FullAt(log, time, n);
    assert FullAt(log + more, time, n);
  }

  lemma {:induction false} HandledBecause(s: State, key: string, pods: seq<Try>, pod: string)
    requires pod !in s.handled
    ensures pod in TriedAll(s, key, pods).state.handled ==>
              EvictedPod(TriedAll(s, key, pods).evictions, pod) || FoundGone(pods, pod)
    decreases |pods|
  {
    if pods != [] {
      var n := |pods| - 1;
      var before := TriedAll(s, key, pods[..n]);
      HandledBecause(s, key, pods[..n], pod);
      hide Kept;
      if pod in before.state.handled {
        if q :| q in pods[..n] && q.pod == pod && q.outcome == Gone { assert q in pods; }
      } else if pod in TriedAll(s, key, pods).state.handled {
        assert pods[n] in pods;
      }
    }
  }

  /** A try the API grants ends in an eviction of its pod, unless the window is full. */
  /** A try settles a pod exactly when the limit leaves room and the API evicts the pod or finds it gone; an exempt pod
      is never settled, and a refusal or an error leaves the pod to the next cycle. */
  lemma TrySettles(s: State, key: string, p: Try)
    ensures var o := Tried(s, key, p);
            && (p.pod in o.state.handled <==>
                  p.pod in s.handled
                  || (!p.exempt && |Kept(s.times, p.check - 300 * SECOND)| < 3 && p.outcome in {Evicted, Gone}))
            && (forall q :: q != p.pod ==> (q in o.state.handled <==> q in s.handled))
            && (o.evictions != [] <==>
                  && p.pod !in s.handled && !p.exempt && |Kept(s.times, p.check - 300 * SECOND)| < 3
                  && p.outcome == Evicted)
            && (o.evictions != [] ==> o.evictions == [Eviction(key, p.pod, p.check, p.act, p.recorded)])
  {
  }

  lemma GrantedTry(log: seq<Eviction>, s: State, key: string, p: Try, clock: int)
    requires RateOk(log, s.times, clock) && clock <= p.check && p.pod !in s.handled && Granted(p)
    ensures EvictedPod(Tried(s, key, p).evictions, p.pod) || Full(log, p.check)
  {
    LimitExactly(log, s, key, p, clock);
    if Tried(s, key, p).evictions != [] {
      assert Tried(s, key, p).evictions[0].pod == p.pod;
    } else {
      RateLater(log, s.times, clock, p.check);
      assert FullAt(log, p.check, |log|);
    }
  }

  lemma {:induction false} GrantedInSlice(log: seq<Eviction>, s: State, key: string, pods: seq<Try>, clock: int, m: nat)
    requires RateOk(log, s.times, clock) && TriesOk(pods, clock) && m < |pods| && Granted(pods[m])
    requires pods[m].pod !in s.handled && !FoundGone(pods, pods[m].pod)
    ensures var o := TriedAll(s, key, pods);
        EvictedPod(o.evictions, pods[m].pod) || Full(log + o.evictions, pods[m].check)
    decreases |pods|
  {
    var n := |pods| - 1;
    var pod, before := pods[m].pod, TriedAll(s, key, pods[..n]);
    var last := Tried(before.state, key, pods[n]);
    assert !FoundGone(pods[..n], pod) by {
      if q :| q in pods[..n] && q.pod == pod && q.outcome == Gone { assert q in pods; }
    }
    hide RateOk, Tried, Full, FoundGone;
    assert log + before.evictions + last.evictions == log + (before.evictions + last.evictions);
    if m < n {
      GrantedInSlice(log, s, key, pods[..n], clock, m);
      if Full(log + before.evictions, pods[m].check) {
        FullGrows(log + before.evictions, last.evictions, pods[m].check);
      }
    } else {
      HandledBecause(s, key, pods[..n], pod);
      TriedAllKeepsRate(log, s, key, pods[..n], clock);
      if pod !in before.state.handled {
        GrantedTry(log + before.evictions, before.state, key, pods[n], TriesEnd(pods[..n], clock));
        if Full(log + before.evictions, pods[m].check) {
          FullGrows(log + before.evictions, last.evictions, pods[m].check);
        }
      }
    }
  }

  lemma GrantedWhenDue(mode: Mode, log: seq<Eviction>, s: State, u: Usage, clock: int, m: nat)
    requires RateOk(log, s.times, clock) && UsageOk(u, clock) && Due(mode, s, u) && m < |u.pods| && Granted(u.pods[m])
    requires u.pods[m].pod !in s.handled && !FoundGone(u.pods, u.pods[m].pod)
    requires u.soft >= StartAfter(s.start, u) + 60 * SECOND
    ensures var o := Handled(mode, s, u);
        EvictedPod(o.evictions, u.pods[m].pod) || Full(log + o.evictions, u.pods[m].check)
  {
    hide RateOk, TriedAll, TriesOk, EvictedPod, Full, FoundGone;
    var s' := Evaluated(s, u);
    var s'' := s'.(start := s'.start[u.key := StartAfter(s'.start, u)], enforced := s'.enforced + {u.key});
    RateLater(log, s.times, clock, u.hard);
    GrantedInSlice(log, s'', u.key, u.pods, u.hard, m);
  }

  lemma SliceBecause(mode: Mode, s: State, u: Usage, pod: string)
    requires pod !in s.handled
    ensures pod in Handled(mode, s, u).state.handled ==>
              EvictedPod(Handled(mode, s, u).evictions, pod) || FoundGone(u.pods, pod)
  {
    hide TriedAll, EvictedPod, FoundGone;
    var s' := Evaluated(s, u);
    HandledBecause(s'.(start := s'.start[u.key := StartAfter(s'.start, u)], enforced := s'.enforced + {u.key}), u.key,
        u.pods, pod);
  }

  lemma {:induction false} CycleBecause(mode: Mode, s: State, us: seq<Usage>, pod: string)
    requires pod !in s.handled
    ensures pod in HandledAll(mode, s, us).state.handled ==>
              EvictedPod(HandledAll(mode, s, us).evictions, pod) || GoneInCycle(us, pod)
    decreases |us|
  {
    hide Handled, FoundGone;
    if us != [] {
      var n := |us| - 1;
      var before := HandledAll(mode, s, us[..n]);
      CycleBecause(mode, s, us[..n], pod);
      if pod !in before.state.handled {
        SliceBecause(mode, before.state, us[n], pod);
      } else if GoneInCycle(us[..n], pod) {
        var i :| 0 <= i < n && FoundGone(us[..n][i].pods, pod);
        assert FoundGone(us[i].pods, pod);
      }
    }
  }

  lemma GoneInPrefix(us: seq<Usage>, n: nat, pod: string)
    requires n <= |us|
    ensures GoneInCycle(us[..n], pod) ==> GoneInCycle(us, pod)
  {
    if GoneInCycle(us[..n], pod) {
      var j :| 0 <= j < n && FoundGone(us[..n][j].pods, pod);
      assert FoundGone(us[j].pods, pod);
    }
  }

  lemma {:induction false} GrantedInCycle(mode: Mode, log: seq<Eviction>, s: State, us: seq<Usage>, clock: int, i: nat,
      m: nat)
    requires RateOk(log, s.times, clock) && CycleOk(us, clock) && Distinct(us) && i < |us| && m < |us[i].pods|
    requires Due(mode, s, us[i]) && us[i].soft >= StartAfter(s.start, us[i]) + 60 * SECOND && Granted(us[i].pods[m])
    requires us[i].pods[m].pod !in s.handled && !GoneInCycle(us, us[i].pods[m].pod)
    ensures var o, p := HandledAll(mode, s, us), us[i].pods[m];
        EvictedPod(o.evictions, p.pod) || Full(log + o.evictions, p.check)
    decreases |us|
  {
    var n := |us| - 1;
    var p, before := us[i].pods[m], HandledAll(mode, s, us[..n]);
    var last := Handled(mode, before.state, us[n]);
    GoneInPrefix(us, n, p.pod);
    assert !FoundGone(us[i].pods, p.pod);
    hide RateOk, Handled, UsageOk, Full, FoundGone, GoneInCycle;
    assert log + before.evictions + last.evictions == log + (before.evictions + last.evictions);
    if i < n {
      GrantedInCycle(mode, log, s, us[..n], clock, i, m);
      if Full(log + before.evictions, p.check) { FullGrows(log + before.evictions, last.evictions, p.check); }
    } else {
      CycleBecause(mode, s, us[..n], p.pod);
      HandledAllKeepsRate(mode, log, s, us[..n], clock);
      UnseenKey(mode, s, us[..n], us[n].key);
      if p.pod !in before.state.handled {
        GrantedWhenDue(mode, log + before.evictions, before.state, us[n], CycleEnd(us[..n], clock), m);
      }
    }
  }

  /** In evict mode, once a slice has been over in every completed cycle since two before cycle `k` and this cycle,
      `us`, reads three minutes past cycle `k`, every pod of it that was not dealt with, is not exempt and whose
      eviction the API grants is evicted in this cycle, unless three evictions already lie in the last five minutes. */
  lemma EvictionFallsDue(run: seq<seq<Usage>>, us: seq<Usage>, clock: int, k: int, start: int, i: nat, m: nat)
    requires RunOk(run + [us], clock) && i < |us| && m < |us[i].pods| && Granted(us[i].pods[m])
    requires Sustained(run + [us], us[i].key, start, k)
    requires us[i].soft >= start + 60 * SECOND && us[i].hard >= start + 180 * SECOND
    requires us[i].pods[m].pod !in After(Evict, run).state.handled && !GoneInCycle(us, us[i].pods[m].pod)
    ensures var o, p := Cycle(Evict, After(Evict, run).state, us), us[i].pods[m];
            EvictedPod(o.evictions, p.pod) || Full(After(Evict, run).evictions + o.evictions, p.check)
  {
    var all, s := run + [us], After(Evict, run).state;
    assert all[..|run|] == run && all[|run|] == us;
    OverAtEnd(Evict, all, us, clock, us[i].key, k);
    EvictionsAreSpaced(Evict, run, clock);
    TimerStarts(run, us, clock, k, start, i);
    hide RateOk, CycleOk, HandledAll, Sustained, After, Full, GoneInCycle, EvictedPod;
    GrantedInCycle(Evict, After(Evict, run).evictions, s, us, RunEnd(run, clock), i, m);
  }

  lemma TimerStarts(run: seq<seq<Usage>>, us: seq<Usage>, clock: int, k: int, start: int, i: nat)
    requires RunOk(run + [us], clock) && i < |us| && Sustained(run + [us], us[i].key, start, k)
    ensures StartAfter(After(Evict, run).state.start, us[i]) <= start
  {
    var all := run + [us];
    assert all[..|run|] == run && all[|run|] == us;
    OverAtEnd(Evict, all, us, clock, us[i].key, k);
    TimerRuns(Evict, all, clock, us[i].key, start, k);
    hide HandledAll, CycleOk, Sustained;
    SeenKey(Evict, After(Evict, run).state, us, i);
    assert us[i] in us;
  }

  /** A pod dealt with in cycle `j`, by an eviction up to it or because it was gone, and found by every cycle since. */
  predicate DealtWith(evictions: seq<Eviction>, run: seq<seq<Usage>>, pod: string, j: int) {
    && 0 <= j < |run| && (forall i :: j <= i < |run| ==> pod in SeenPods(run[i]))
    && (EvictedPod(evictions, pod) || GoneInCycle(run[j], pod))
  }

  lemma DealtWithOn(evictions: seq<Eviction>, more: seq<Eviction>, rest: seq<seq<Usage>>, us: seq<Usage>, pod: string,
      j: int)
    requires DealtWith(evictions, rest, pod, j) && pod in SeenPods(us)
    ensures DealtWith(evictions + more, rest + [us], pod, j)
  {
    hide SeenPods, GoneInCycle;
    if EvictedPod(evictions, pod) {
      var e :| e in evictions && e.pod == pod;
      assert e in evictions + more;
    }
  }

  lemma DealtWithNow(evictions: seq<Eviction>, more: seq<Eviction>, rest: seq<seq<Usage>>, us: seq<Usage>, pod: string)
    requires (EvictedPod(more, pod) || GoneInCycle(us, pod)) && pod in SeenPods(us)
    ensures DealtWith(evictions + more, rest + [us], pod, |rest|)
  {
    hide SeenPods, GoneInCycle;
    if EvictedPod(more, pod) {
      var e :| e in more && e.pod == pod;
      assert e in evictions + more;
    }
  }

  /** A pod is remembered as dealt with only from a cycle that evicted it or found it gone, and only while every
      completed cycle still finds it. */
  lemma {:induction false} HandledIsEarned(mode: Mode, run: seq<seq<Usage>>, pod: string) returns (j: int)
    requires pod in After(mode, run).state.handled
    ensures DealtWith(After(mode, run).evictions, run, pod, j)
    decreases |run|
  {
    hide HandledAll, GoneInCycle, SeenPods, DealtWith, EvictedPod;
    var n := |run| - 1;
    var before, us := After(mode, run[..n]), run[n];
    var o := HandledAll(mode, before.state, us);
    assert run == run[..n] + [us] && pod in SeenPods(us);
    if pod in before.state.handled {
      j := HandledIsEarned(mode, run[..n], pod);
      DealtWithOn(before.evictions, o.evictions, run[..n], us, pod, j);
    } else {
      CycleBecause(mode, before.state, us, pod);
      DealtWithNow(before.evictions, o.evictions, run[..n], us, pod);
      j := n;
    }
  }
}
