/**
 * What enforcement guarantees over every run of completed detection cycles on a clock that never goes back:
 * evictions are spaced, earned by sustained over-use, and not repeated on a pod that stays in sight.
 */
module EnforcementSafety {
  import opened Enforcements

  // ----- Clock readings -----

  function TriesEnd(pods: seq<Try>, clock: int): int {
    if pods == [] then clock else pods[|pods| - 1].recorded
  }

  predicate TriesOk(pods: seq<Try>, clock: int) {
    pods == [] ||
    (var n := |pods| - 1;
     TriesOk(pods[..n], clock) && TriesEnd(pods[..n], clock) <= pods[n].check <= pods[n].act <= pods[n].recorded)
  }

  predicate UsageOk(u: Usage, clock: int) {
    clock <= u.began <= u.soft <= u.hard && TriesOk(u.pods, u.hard)
  }

  function CycleEnd(us: seq<Usage>, clock: int): int {
    if us == [] then clock else TriesEnd(us[|us| - 1].pods, us[|us| - 1].hard)
  }

  /** Readings come in order. */
  predicate CycleOk(us: seq<Usage>, clock: int) {
    us == [] || (var n := |us| - 1; CycleOk(us[..n], clock) && UsageOk(us[n], CycleEnd(us[..n], clock)))
  }

  /** Usage is a map by slice key. */
  predicate Distinct(us: seq<Usage>) {
    forall i, j :: 0 <= i < j < |us| ==> us[i].key != us[j].key
  }

  function RunEnd(run: seq<seq<Usage>>, clock: int): int {
    if run == [] then clock else var n := |run| - 1; CycleEnd(run[n], RunEnd(run[..n], clock))
  }

  predicate RunOk(run: seq<seq<Usage>>, clock: int) {
    run == [] || (var n := |run| - 1;
        RunOk(run[..n], clock) && CycleOk(run[n], RunEnd(run[..n], clock)) && Distinct(run[n]))
  }

  /** The state after a run of cycles and everything it evicted. */
  function From(mode: Mode, s: State, run: seq<seq<Usage>>): Out {
    if run == [] then Out(s, [])
    else
      var n := |run| - 1;
      var before := From(mode, s, run[..n]);
      var last := Cycle(mode, before.state, run[n]);
      Out(last.state, before.evictions + last.evictions)
  }

  function After(mode: Mode, run: seq<seq<Usage>>): Out { From(mode, Initial, run) }

  // ----- The rate limit -----

  predicate InOrder(log: seq<Eviction>, clock: int) {
    && (forall i :: 0 <= i < |log| ==> log[i].check <= log[i].act <= log[i].recorded <= clock)
    && (forall i, j :: 0 <= i < j < |log| ==> log[i].recorded <= log[j].check)
  }

  /** The buffer holds the last evictions; those it dropped are outside the window. */
  predicate Buffered(log: seq<Eviction>, times: seq<int>, clock: int) {
    && |times| <= |log|
    && (forall i :: 0 <= i < |times| ==> times[i] == log[|log| - |times| + i].recorded)
    && (forall i :: 0 <= i < |log| - |times| ==> log[i].recorded <= clock - WINDOW)
  }

  /** Any four evictions span at least a window. */
  predicate Spaced(log: seq<Eviction>) {
    forall i, j :: 0 <= i && i + 3 <= j < |log| ==> log[j].act - log[i].act >= 300 * SECOND
  }

  predicate RateOk(log: seq<Eviction>, times: seq<int>, clock: int) {
    InOrder(log, clock) && Buffered(log, times, clock) && Spaced(log)
  }

  lemma RateLater(log: seq<Eviction>, times: seq<int>, clock: int, now: int)
    requires RateOk(log, times, clock) && clock <= now
    ensures RateOk(log, times, now)
  {
  }

  /** On ascending times the compaction keeps a suffix. */
  lemma {:induction false} KeptSuffix(times: seq<int>, cutoff: int) returns (j: nat)
    requires forall a, b :: 0 <= a < b < |times| ==> times[a] <= times[b]
    ensures j <= |times| && Kept(times, cutoff) == times[j..] && forall i :: 0 <= i < j ==> times[i] <= cutoff
    decreases |times|
  {
    j := |times|;
    KeptLast(times, cutoff);
    hide Kept;
    if times != [] {
      var n := |times| - 1;
      if times[n] <= cutoff {
        KeptNone(times, cutoff);
      } else {
        j := KeptSuffix(times[..n], cutoff);
        assert times[j..] == times[..n][j..] + [times[n]];
      }
    }
  }

  lemma KeptLast(times: seq<int>, cutoff: int)
    ensures Kept(times, cutoff) ==
            if times == [] then []
                else Kept(times[..|times| - 1], cutoff) + if times[|times| - 1] > cutoff then [times[|times| - 1]]
                else []
  {
  }

  lemma {:induction false} KeptNone(times: seq<int>, cutoff: int)
    requires forall i :: 0 <= i < |times| ==> times[i] <= cutoff
    ensures Kept(times, cutoff) == []
    decreases |times|
  {
    if times != [] { KeptNone(times[..|times| - 1], cutoff); }
  }

  lemma {:induction false} KeptAbove(times: seq<int>, cutoff: int)
    ensures forall t :: t in Kept(times, cutoff) ==> t > cutoff
    decreases |times|
  {
    if times != [] { KeptAbove(times[..|times| - 1], cutoff); }
  }

  lemma BufferAscends(log: seq<Eviction>, times: seq<int>, clock: int)
    requires InOrder(log, clock) && Buffered(log, times, clock)
    ensures forall a, b :: 0 <= a < b < |times| ==> times[a] <= times[b]
  {
    var d := |log| - |times|;
    forall a, b | 0 <= a < b < |times| ensures times[a] <= times[b] {
      assert log[d + a].recorded <= log[d + b].check;
    }
  }

  /** Dropping from the front of the buffer what the window no longer covers. */
  lemma DropKeepsBuffered(log: seq<Eviction>, times: seq<int>, clock: int, now: int, j: nat)
    requires Buffered(log, times, clock) && clock <= now && j <= |times|
    requires forall i :: 0 <= i < j ==> times[i] <= now - WINDOW
    ensures Buffered(log, times[j..], now)
  {
    var d := |log| - |times|;
    forall i | 0 <= i < d + j ensures log[i].recorded <= now - WINDOW {
      if i >= d { assert times[i - d] == log[d + (i - d)].recorded; }
    }
  }

  lemma CompactKeepsRate(log: seq<Eviction>, times: seq<int>, clock: int, now: int)
    requires RateOk(log, times, clock) && clock <= now
    ensures RateOk(log, Kept(times, now - WINDOW), now)
  {
    RateLater(log, times, clock, now);
    BufferAscends(log, times, clock);
    hide InOrder, Buffered, Spaced, Kept;
    var j := KeptSuffix(times, now - WINDOW);
    DropKeepsBuffered(log, times, clock, now, j);
  }

  lemma RecordKeepsRate(log: seq<Eviction>, times: seq<int>, e: Eviction)
    requires RateOk(log, times, e.check) && |times| < MAX_EVICTIONS && e.check <= e.act <= e.recorded
    ensures RateOk(log + [e], times + [e.recorded], e.recorded)
  {
    var log' := log + [e];
    forall i, j | 0 <= i && i + 3 <= j < |log'| ensures log'[j].act - log'[i].act >= 300 * SECOND {
      if j == |log| { assert log[i].recorded <= e.check - WINDOW; }
    }
  }

  lemma TriedKeepsRate(log: seq<Eviction>, s: State, key: string, p: Try, clock: int)
    requires RateOk(log, s.times, clock) && clock <= p.check <= p.act <= p.recorded
    ensures var o := Tried(s, key, p); RateOk(log + o.evictions, o.state.times, p.recorded)
  {
    hide RateOk, Kept;
    CompactKeepsRate(log, s.times, clock, p.check);
    var kept := Kept(s.times, p.check - WINDOW);
    RateLater(log, kept, p.check, p.recorded);
    RateLater(log, s.times, clock, p.recorded);
    assert log + [] == log;
    if |kept| < MAX_EVICTIONS {
      RecordKeepsRate(log, kept, Eviction(key, p.pod, p.check, p.act, p.recorded));
    }
  }

  /** The limit is exact: an eviction the API grants goes through just when fewer than three were recorded in the
      window, that is, when the third last one is at least five minutes old. */
  lemma LimitExactly(log: seq<Eviction>, s: State, key: string, p: Try, clock: int)
    requires RateOk(log, s.times, clock) && clock <= p.check && p.pod !in s.handled && !p.exempt && p.outcome == Evicted
    ensures Tried(s, key, p).evictions != []
        <==> |log| < 3 || log[|log| - 3].recorded <= p.check - 300 * SECOND
  {
    CompactKeepsRate(log, s.times, clock, p.check);
    var kept := Kept(s.times, p.check - WINDOW);
    KeptAbove(s.times, p.check - WINDOW);
    hide Kept;
    assert |Tried(s, key, p).evictions| == if |kept| < MAX_EVICTIONS then 1 else 0;
    if |kept| >= MAX_EVICTIONS {
      assert kept[|kept| - MAX_EVICTIONS] == log[|log| - MAX_EVICTIONS].recorded;
      assert kept[|kept| - MAX_EVICTIONS] in kept;
    }
  }

  lemma {:induction false} TriedAllKeepsRate(log: seq<Eviction>, s: State, key: string, pods: seq<Try>, clock: int)
    requires RateOk(log, s.times, clock) && TriesOk(pods, clock)
    ensures var o := TriedAll(s, key, pods);
        RateOk(log + o.evictions, o.state.times, TriesEnd(pods, clock)) && clock <= TriesEnd(pods, clock)
    decreases |pods|
  {
    hide RateOk, Tried;
    if pods == [] {
      assert log + [] == log;
    } else {
      var n := |pods| - 1;
      var before := TriedAll(s, key, pods[..n]);
      TriedAllKeepsRate(log, s, key, pods[..n], clock);
      TriedKeepsRate(log + before.evictions, before.state, key, pods[n], TriesEnd(pods[..n], clock));
      var last := Tried(before.state, key, pods[n]);
      assert log + before.evictions + last.evictions == log + (before.evictions + last.evictions);
    }
  }

  lemma HandledKeepsRate(mode: Mode, log: seq<Eviction>, s: State, u: Usage, clock: int)
    requires RateOk(log, s.times, clock) && UsageOk(u, clock)
    ensures var o := Handled(mode, s, u);
        RateOk(log + o.evictions, o.state.times, TriesEnd(u.pods, u.hard)) && clock <= TriesEnd(u.pods, u.hard)
  {
    hide RateOk, TriedAll, TriesOk, TriesEnd;
    var end := TriesEnd(u.pods, u.hard);
    RateLater(log, s.times, clock, u.hard);
    TriedAllKeepsRate(log, s, u.key, u.pods, u.hard);
    RateLater(log, s.times, clock, end);
    assert log + [] == log;
    var s' := Evaluated(s, u);
    var t := StartAfter(s'.start, u);
    var s'' := s'.(start := s'.start[u.key := t], enforced := s'.enforced + {u.key});
    TriedAllKeepsRate(log, s'', u.key, u.pods, u.hard);
  }

  lemma {:induction false} HandledAllKeepsRate(mode: Mode, log: seq<Eviction>, s: State, us: seq<Usage>, clock: int)
    requires RateOk(log, s.times, clock) && CycleOk(us, clock)
    ensures var o := HandledAll(mode, s, us); RateOk(log + o.evictions, o.state.times, CycleEnd(us, clock))
    decreases |us|
  {
    hide RateOk, Handled, UsageOk;
    if us == [] {
      assert log + [] == log;
    } else {
      var n := |us| - 1;
      var before := HandledAll(mode, s, us[..n]);
      HandledAllKeepsRate(mode, log, s, us[..n], clock);
      HandledKeepsRate(mode, log + before.evictions, before.state, us[n], CycleEnd(us[..n], clock));
      var last := Handled(mode, before.state, us[n]);
      assert log + before.evictions + last.evictions == log + (before.evictions + last.evictions);
    }
  }

  /** In every run any four successful evictions span at least five minutes. */
  lemma {:induction false} EvictionsAreSpaced(mode: Mode, run: seq<seq<Usage>>, clock: int)
    requires RunOk(run, clock)
    ensures var o := After(mode, run); Spaced(o.evictions) && RateOk(o.evictions, o.state.times, RunEnd(run, clock))
    decreases |run|
  {
    hide HandledAll, CycleOk, Distinct;
    if run != [] {
      var n := |run| - 1;
      EvictionsAreSpaced(mode, run[..n], clock);
      var before := After(mode, run[..n]);
      hide RateOk;
      HandledAllKeepsRate(mode, before.evictions, before.state, run[n], RunEnd(run[..n], clock));
      RateIsSpaced(After(mode, run).evictions, After(mode, run).state.times, RunEnd(run, clock));
    }
  }

  lemma RateIsSpaced(log: seq<Eviction>, times: seq<int>, clock: int)
    requires RateOk(log, times, clock)
    ensures Spaced(log)
  {
  }

  predicate Inside(e: Eviction, from: int) { from <= e.act < from + 300 * SECOND }

  function CountInside(log: seq<Eviction>, from: int): int {
    if log == [] then 0
    else CountInside(log[..|log| - 1], from) + if Inside(log[|log| - 1], from) then 1 else 0
  }

  lemma {:induction false} OnlyTailInside(log: seq<Eviction>, from: int, k: nat)
    requires k <= |log| && forall i :: 0 <= i < k ==> !Inside(log[i], from)
    ensures CountInside(log, from) <= |log| - k
    decreases |log|
  {
    if log != [] {
      var n := |log| - 1;
      OnlyTailInside(log[..n], from, if k < n then k else n);
    }
  }

  lemma {:induction false} SpacedCount(log: seq<Eviction>, from: int)
    requires Spaced(log)
    ensures CountInside(log, from) <= 3
    decreases |log|
  {
    if log != [] {
      var n := |log| - 1;
      if Inside(log[n], from) {
        OnlyTailInside(log, from, if n < MAX_EVICTIONS then 0 else n - 2);
      } else {
        SpacedCount(log[..n], from);
      }
    }
  }

  /** Never more than three in any half-open five-minute window. */
  lemma AtMostThreePerWindow(mode: Mode, run: seq<seq<Usage>>, clock: int, from: int)
    requires RunOk(run, clock)
    ensures CountInside(After(mode, run).evictions, from) <= 3
  {
    EvictionsAreSpaced(mode, run, clock);
    SpacedCount(After(mode, run).evictions, from);
  }

  // ----- Evictions are earned -----

  /** A cycle in which the slice used more than its grant and the tolerance. */
  predicate SawOver(us: seq<Usage>, key: string) {
    exists i :: 0 <= i < |us| && us[i].key == key && us[i].used > us[i].grant + 256 * 1024 * 1024
  }

  predicate SawAt(us: seq<Usage>, key: string, began: int) {
    exists i :: 0 <= i < |us| && us[i].key == key && us[i].began == began
  }

  /** From two cycles before the timer started in cycle `k`, every completed cycle saw the slice over. */
  predicate Sustained(hist: seq<seq<Usage>>, key: string, start: int, k: int) {
    2 <= k < |hist| && SawAt(hist[k], key, start) && forall j :: k - 2 <= j < |hist| ==> SawOver(hist[j], key)
  }

  predicate StreakOk(hist: seq<seq<Usage>>, key: string, n: nat) {
    n <= |hist| && forall j :: |hist| - n <= j < |hist| ==> SawOver(hist[j], key)
  }

  ghost predicate Timers(mode: Mode, s: State, hist: seq<seq<Usage>>) {
    && (mode == Off ==> s.start == map[])
    && (forall key :: key in s.streak ==> StreakOk(hist, key, s.streak[key]))
    && (forall key :: key in s.start ==> exists k :: Sustained(hist, key, s.start[key], k))
  }

  lemma {:induction false} TriedAllFrame(s: State, key: string, pods: seq<Try>)
    ensures var s' := TriedAll(s, key, pods).state;
        && s'.streak == s.streak && s'.active == s.active && s'.start == s.start && s'.enforced == s.enforced
        && s.handled <= s'.handled
    decreases |pods|
  {
    if pods != [] { TriedAllFrame(s, key, pods[..|pods| - 1]); }
  }

  /** What handling one slice does to the timers of every key. */
  lemma HandledTimers(mode: Mode, s: State, u: Usage)
    ensures var s' := Handled(mode, s, u).state;
            && s'.streak == s.streak[u.key := StreakAfter(s.streak, u)]
            && s'.active == s.active[u.key := StreakAfter(s.streak, u) >= STREAK]
            && (s'.enforced == if mode == Off then s.enforced
                               else if StreakAfter(s.streak, u) < STREAK then s.enforced - {u.key}
                               else if u.soft < StartAfter(s.start, u) + SOFT_GRACE then s.enforced
                               else s.enforced + {u.key})
            && s'.start == (if mode == Off then s.start
                            else if StreakAfter(s.streak, u) >= STREAK then s.start[u.key := StartAfter(s.start, u)]
                            else s.start - {u.key})
            && s.handled <= s'.handled
  {
    hide TriedAll;
    var s' := Evaluated(s, u);
    TriedAllFrame(s'.(start := s'.start[u.key := StartAfter(s'.start, u)], enforced := s'.enforced + {u.key}), u.key,
        u.pods);
  }

  /** What is left of the entry of `key`. */
  predicate SameTimers(s: State, s': State, key: string) {
    && (key in s'.streak <==> key in s.streak) && (key in s.streak ==> s'.streak[key] == s.streak[key])
    && (key in s'.start <==> key in s.start) && (key in s.start ==> s'.start[key] == s.start[key])
    && (key in s'.enforced <==> key in s.enforced)
  }

  lemma {:induction false} UnseenKey(mode: Mode, s: State, us: seq<Usage>, key: string)
    requires forall i :: 0 <= i < |us| ==> us[i].key != key
    ensures SameTimers(s, HandledAll(mode, s, us).state, key)
    decreases |us|
  {
    if us != [] {
      var n := |us| - 1;
      hide Handled;
      UnseenKey(mode, s, us[..n], key);
      HandledTimers(mode, HandledAll(mode, s, us[..n]).state, us[n]);
    }
  }

  /** The timers of the key of `us[i]` as this cycle leaves them. */
  lemma {:induction false} SeenKey(mode: Mode, s: State, us: seq<Usage>, i: nat)
    requires i < |us| && Distinct(us)
    ensures var s' := HandledAll(mode, s, us).state; var u := us[i];
            && u.key in s'.streak && s'.streak[u.key] == StreakAfter(s.streak, u)
            && (mode != Off ==> (u.key in s'.start <==> StreakAfter(s.streak, u) >= STREAK))
            && (mode != Off && u.key in s'.start ==> s'.start[u.key] == StartAfter(s.start, u))
            && (mode != Off ==> (u.key in s'.enforced <==>
                  StreakAfter(s.streak, u) >= STREAK
                  && (u.key in s.enforced || u.soft >= StartAfter(s.start, u) + SOFT_GRACE)))
    decreases |us|
  {
    var n := |us| - 1;
    hide Handled;
    HandledTimers(mode, HandledAll(mode, s, us[..n]).state, us[n]);
    if i == n {
      UnseenKey(mode, s, us[..n], us[n].key);
    } else {
      SeenKey(mode, s, us[..n], i);
    }
  }

  lemma {:induction false} OffStartsNothing(s: State, us: seq<Usage>)
    ensures HandledAll(Off, s, us).state.start == s.start && HandledAll(Off, s, us).evictions == []
    decreases |us|
  {
    if us != [] { OffStartsNothing(s, us[..|us| - 1]); }
  }

  lemma StreakGrows(hist: seq<seq<Usage>>, s: State, us: seq<Usage>, i: nat)
    requires i < |us| && forall key :: key in s.streak ==> StreakOk(hist, key, s.streak[key])
    ensures StreakOk(hist + [us], us[i].key, StreakAfter(s.streak, us[i]))
  {
    var u, hist' := us[i], hist + [us];
    if Over(u) {
      assert SawOver(us, u.key);
      var n := StreakAfter(s.streak, u);
      forall j | |hist'| - n <= j < |hist'| ensures SawOver(hist'[j], u.key) {
        if j < |hist| { assert StreakOk(hist, u.key, s.streak[u.key]); }
      }
    }
  }

  /** A running timer, or one started now by a third over-use in a row. */
  lemma TimerSustained(hist: seq<seq<Usage>>, s: State, us: seq<Usage>, i: nat) returns (k: int)
    requires i < |us| && StreakAfter(s.streak, us[i]) >= STREAK
    requires forall key :: key in s.streak ==> StreakOk(hist, key, s.streak[key])
    requires forall key :: key in s.start ==> exists k :: Sustained(hist, key, s.start[key], k)
    ensures Sustained(hist + [us], us[i].key, StartAfter(s.start, us[i]), k)
  {
    var u, hist' := us[i], hist + [us];
    StreakGrows(hist, s, us, i);
    assert SawOver(us, u.key);
    if u.key in s.start {
      k :| Sustained(hist, u.key, s.start[u.key], k);
      assert hist'[k] == hist[k];
      forall j | k - 2 <= j < |hist'| ensures SawOver(hist'[j], u.key) {
        if j < |hist| { assert hist'[j] == hist[j]; }
      }
    } else {
      k := |hist|;
      assert SawAt(hist'[k], u.key, u.began);
    }
  }

  lemma CycleKeepsTimers(mode: Mode, s: State, hist: seq<seq<Usage>>, us: seq<Usage>)
    requires Timers(mode, s, hist) && Distinct(us)
    ensures Timers(mode, Cycle(mode, s, us).state, hist + [us])
  {
    hide HandledAll, Sustained, StreakOk, SawOver, SawAt;
    var mid, s' := HandledAll(mode, s, us).state, Cycle(mode, s, us).state;
    if mode == Off { OffStartsNothing(s, us); }
    forall key | key in s'.streak ensures StreakOk(hist + [us], key, s'.streak[key]) {
      var i := IndexOf(us, key);
      SeenKey(mode, s, us, i);
      StreakGrows(hist, s, us, i);
    }
    forall key | key in s'.start ensures exists k :: Sustained(hist + [us], key, s'.start[key], k) {
      var i := IndexOf(us, key);
      SeenKey(mode, s, us, i);
      var k := TimerSustained(hist, s, us, i);
    }
  }

  lemma IndexOf(us: seq<Usage>, key: string) returns (i: nat)
    requires key in SeenKeys(us)
    ensures i < |us| && us[i].key == key
  {
    var u :| u in us && u.key == key;
    i :| 0 <= i < |us| && us[i] == u;
  }

  lemma {:induction false} RunKeepsTimers(mode: Mode, run: seq<seq<Usage>>, clock: int)
    requires RunOk(run, clock)
    ensures Timers(mode, After(mode, run).state, run)
    decreases |run|
  {
    if run != [] {
      var n := |run| - 1;
      hide Timers, Cycle, CycleOk, Distinct;
      RunKeepsTimers(mode, run[..n], clock);
      CycleKeepsTimers(mode, After(mode, run[..n]).state, run[..n], run[n]);
      assert run == run[..n] + [run[n]];
    }
  }

  /** The try behind an eviction: a pod not handled before, not exempt, and evicted by the API. */
  predicate TryOf(p: Try, e: Eviction) { p.pod == e.pod && p.act == e.act && !p.exempt && p.outcome == Evicted }

  lemma {:induction false} TriedAllCause(s: State, key: string, pods: seq<Try>, clock: int, e: Eviction)
    requires TriesOk(pods, clock) && e in TriedAll(s, key, pods).evictions
    ensures e.key == key && e.act >= clock && e.pod !in s.handled && exists p :: p in pods && TryOf(p, e)
    decreases |pods|
  {
    var n := |pods| - 1;
    var before := TriedAll(s, key, pods[..n]);
    hide Kept;
    TriedAllFrame(s, key, pods[..n]);
    TriesForward(pods[..n], clock);
    if e in before.evictions {
      TriedAllCause(s, key, pods[..n], clock, e);
      var p :| p in pods[..n] && TryOf(p, e);
      assert p in pods;
    } else {
      assert e in Tried(before.state, key, pods[n]).evictions;
      assert TryOf(pods[n], e);
    }
  }

  lemma {:induction false} TriesForward(pods: seq<Try>, clock: int)
    requires TriesOk(pods, clock)
    ensures clock <= TriesEnd(pods, clock)
    decreases |pods|
  {
    if pods != [] { TriesForward(pods[..|pods| - 1], clock); }
  }

  /** Past the deadline that counts from the timer's start, on a third over-use in a row or later. */
  predicate Due(mode: Mode, s: State, u: Usage) {
    mode == Evict && StreakAfter(s.streak, u) >= STREAK && u.hard >= StartAfter(s.start, u) + SOFT_GRACE + EVICT_GRACE
  }

  predicate CausedBy(u: Usage, e: Eviction) {
    u.key == e.key && e.act >= u.hard && exists p :: p in u.pods && TryOf(p, e)
  }

  lemma HandledCause(mode: Mode, s: State, u: Usage, clock: int, e: Eviction)
    requires UsageOk(u, clock) && e in Handled(mode, s, u).evictions
    ensures Due(mode, s, u) && CausedBy(u, e) && e.pod !in s.handled
  {
    hide TriedAll, TriesOk;
    var s' := Evaluated(s, u);
    TriedAllCause(s'.(start := s'.start[u.key := StartAfter(s'.start, u)], enforced := s'.enforced + {u.key}), u.key,
        u.pods, u.hard, e);
  }

  lemma {:induction false} HandledAllCause(mode: Mode, s: State, us: seq<Usage>, clock: int, e: Eviction)
      returns (i: nat)
    requires CycleOk(us, clock) && Distinct(us) && e in HandledAll(mode, s, us).evictions
    ensures i < |us| && Due(mode, s, us[i]) && CausedBy(us[i], e) && e.pod !in s.handled
    decreases |us|
  {
    var n := |us| - 1;
    var before := HandledAll(mode, s, us[..n]);
    hide Handled, UsageOk, CausedBy;
    HandledAllGrows(mode, s, us[..n]);
    if e in before.evictions {
      i := HandledAllCause(mode, s, us[..n], clock, e);
    } else {
      i := n;
      HandledCause(mode, before.state, us[n], CycleEnd(us[..n], clock), e);
      UnseenKey(mode, s, us[..n], us[n].key);
    }
  }

  lemma {:induction false} HandledAllGrows(mode: Mode, s: State, us: seq<Usage>)
    ensures s.handled <= HandledAll(mode, s, us).state.handled
    decreases |us|
  {
    if us != [] {
      var n := |us| - 1;
      HandledAllGrows(mode, s, us[..n]);
      HandledTimers(mode, HandledAll(mode, s, us[..n]).state, us[n]);
    }
  }

  /** Every eviction of every run, in the cycle that follows `run`: only in evict mode, of a pod of that slice which is
      not exempt, and after at least three minutes during which every completed cycle saw the slice over its grant and
      tolerance, as did the two cycles before. */
  lemma EvictionIsEarned(mode: Mode, run: seq<seq<Usage>>, us: seq<Usage>, clock: int, e: Eviction)
      returns (i: nat, k: int, start: int)
    requires RunOk(run, clock) && CycleOk(us, RunEnd(run, clock)) && Distinct(us)
    requires e in Cycle(mode, After(mode, run).state, us).evictions
    ensures mode == Evict && i < |us| && CausedBy(us[i], e)
    ensures Sustained(run + [us], e.key, start, k) && e.act - start >= 180 * SECOND
  {
    var s := After(mode, run).state;
    RunKeepsTimers(mode, run, clock);
    i := HandledAllCause(mode, s, us, RunEnd(run, clock), e);
    hide HandledAll, CycleOk, RunOk, Sustained, StreakOk;
    start := StartAfter(s.start, us[i]);
    k := TimerSustained(run, s, us, i);
  }

  // ----- Evictions are not repeated -----

  lemma {:induction false} EvictedIsHandled(s: State, key: string, pods: seq<Try>, e: Eviction)
    requires e in TriedAll(s, key, pods).evictions
    ensures e.pod in TriedAll(s, key, pods).state.handled
    decreases |pods|
  {
    var n := |pods| - 1;
    hide Kept;
    if e in TriedAll(s, key, pods[..n]).evictions { EvictedIsHandled(s, key, pods[..n], e); }
  }

  /** A pod that was dealt with is left alone for as long as every completed cycle finds it on some slice. */
  lemma {:induction false} HandledPodIsLeftAlone(mode: Mode, s: State, run: seq<seq<Usage>>, clock: int, pod: string)
    requires RunOk(run, clock) && pod in s.handled && forall j :: 0 <= j < |run| ==> pod in SeenPods(run[j])
    ensures var o := From(mode, s, run); pod in o.state.handled && forall e :: e in o.evictions ==> e.pod != pod
    decreases |run|
  {
    if run != [] {
      var n := |run| - 1;
      HandledPodIsLeftAlone(mode, s, run[..n], clock, pod);
      var before := From(mode, s, run[..n]);
      HandledAllGrows(mode, before.state, run[n]);
      hide HandledAll, CycleOk;
      assert pod in SeenPods(run[n]);
      forall e | e in HandledAll(mode, before.state, run[n]).evictions ensures e.pod != pod {
        var i := HandledAllCause(mode, before.state, run[n], RunEnd(run[..n], clock), e);
      }
    }
  }

  lemma HandledEvictedIsHandled(mode: Mode, s: State, u: Usage, e: Eviction)
    requires e in Handled(mode, s, u).evictions
    ensures e.pod in Handled(mode, s, u).state.handled
  {
    hide TriedAll;
    var s' := Evaluated(s, u);
    EvictedIsHandled(s'.(start := s'.start[u.key := StartAfter(s'.start, u)], enforced := s'.enforced + {u.key}),
        u.key, u.pods, e);
  }

  lemma {:induction false} CycleEvictedIsHandled(mode: Mode, s: State, us: seq<Usage>, e: Eviction)
    requires e in HandledAll(mode, s, us).evictions
    ensures e.pod in HandledAll(mode, s, us).state.handled
    decreases |us|
  {
    var n := |us| - 1;
    var before := HandledAll(mode, s, us[..n]);
    hide Handled;
    HandledTimers(mode, before.state, us[n]);
    if e in before.evictions {
      CycleEvictedIsHandled(mode, s, us[..n], e);
    } else {
      HandledEvictedIsHandled(mode, before.state, us[n], e);
    }
  }

  /** A pod evicted in one cycle is not evicted again in later ones until a completed cycle no longer finds it. */
  lemma EvictedOnce(mode: Mode, s: State, us: seq<Usage>, run: seq<seq<Usage>>, clock: int, e: Eviction)
    requires CycleOk(us, clock) && Distinct(us) && RunOk(run, CycleEnd(us, clock))
    requires e in Cycle(mode, s, us).evictions && forall j :: 0 <= j < |run| ==> e.pod in SeenPods(run[j])
    ensures forall f :: f in From(mode, Cycle(mode, s, us).state, run).evictions ==> f.pod != e.pod
  {
    CycleEvictedIsHandled(mode, s, us, e);
    var i := HandledAllCause(mode, s, us, clock, e);
    hide HandledAll, CycleOk, RunOk, From;
    var p :| p in us[i].pods && TryOf(p, e);
    assert us[i] in us && p.pod in SeenPods(us);
    HandledPodIsLeftAlone(mode, Cycle(mode, s, us).state, run, CycleEnd(us, clock), e.pod);
  }
}
