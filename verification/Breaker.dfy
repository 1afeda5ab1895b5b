// The circuit breaker over reconnect-failure timestamps. Times are in integer ticks.
module Breaker {
  import opened Models

  const FAILURE_HISTORY := 200
  const ERROR_HISTORY := 1000

  // Timestamps at most `window` old, in order.
  function Recent(times: seq<int>, now: int, window: int): (r: seq<int>)
    ensures |r| <= |times|
    ensures forall t :: t in r <==> t in times && now - t <= window
  {
    if times == [] then []
    else (if now - times[0] <= window then [times[0]] else []) + Recent(times[1..], now, window)
  }

  function MaxOf(times: seq<int>): (m: int)
    requires times != []
    ensures m in times && forall t :: t in times ==> t <= m
  {
    if |times| == 1 then times[0]
    else
      assert times == [times[0]] + times[1..];
      var rest := MaxOf(times[1..]);
      if times[0] > rest then times[0] else rest
  }

  // is_circuit_open; None when it raises, because max() of no timestamps is an error.
  function CircuitOpen(times: seq<int>, now: int, threshold: int, window: int, cooldown: int): Option<bool> {
    var recent := Recent(times, now, window);
    if |recent| < threshold then Some(false)
    else if recent == [] then None
    else Some(now - MaxOf(recent) < cooldown)
  }

  // The same decision as build_channel_health reports it.
  function HealthShowsOpen(times: seq<int>, now: int, threshold: int, window: int, cooldown: int): bool {
    var recent := Recent(times, now, window);
    |recent| >= threshold && recent != [] && now - MaxOf(recent) < cooldown
  }

  // The two agree except that the gate raises, rather than answering no, when a non-positive
  // threshold meets an empty window.
  lemma HealthAgrees(times: seq<int>, now: int, threshold: int, window: int, cooldown: int)
    ensures CircuitOpen(times, now, threshold, window, cooldown) ==
      if threshold <= 0 && (forall t :: t in times ==> now - t > window) then None
      else Some(HealthShowsOpen(times, now, threshold, window, cooldown))
  {
    var recent := Recent(times, now, window);
    if recent != [] {
      assert recent[0] in recent;
    }
  }

  // ---- The bounded deque refines the full history ----

  ghost predicate Sorted(times: seq<int>) {
    forall i, j :: 0 <= i < j < |times| ==> times[i] <= times[j]
  }

  lemma {:induction false} RecentIsSuffix(times: seq<int>, now: int, window: int, cut: nat)
    requires cut <= |times|
    requires forall i :: 0 <= i < |times| ==> (now - times[i] <= window <==> cut <= i)
    ensures Recent(times, now, window) == times[cut..]
  {
    if times != [] {
      RecentIsSuffix(times[1..], now, window, if cut == 0 then 0 else cut - 1);
      if cut == 0 {
        assert [times[0]] + times[1..] == times;
      }
    }
  }

  // In a sorted history the recent timestamps are a suffix.
  lemma {:induction false} CutExists(times: seq<int>, now: int, window: int) returns (cut: nat)
    requires Sorted(times)
    ensures cut <= |times|
    ensures forall i :: 0 <= i < |times| ==> (now - times[i] <= window <==> cut <= i)
  {
    if times == [] {
      cut := 0;
    } else {
      var rest := CutExists(times[1..], now, window);
      cut := if now - times[0] <= window then 0 else rest + 1;
      assert forall i :: 0 < i < |times| ==> times[i] == times[1..][i - 1];
    }
  }

  lemma SortedMaxIsLast(times: seq<int>)
    requires Sorted(times) && times != []
    ensures MaxOf(times) == times[|times| - 1]
  {
    assert times[|times| - 1] in times;
  }

  // Bounding the history and selecting the recent part commute.
  lemma RecentOfKept(history: seq<int>, n: nat, now: int, window: int)
    requires Sorted(history)
    ensures Recent(LastN(history, n), now, window) == LastN(Recent(history, now, window), n)
  {
    if |history| > n {
      var kept := LastN(history, n);
      var cut := CutExists(history, now, window);
      var dropped := |history| - n;
      RecentIsSuffix(history, now, window, cut);
      RecentIsSuffix(kept, now, window, if cut <= dropped then 0 else cut - dropped);
    }
  }

  lemma RecentIsSorted(history: seq<int>, now: int, window: int)
    requires Sorted(history)
    ensures Sorted(Recent(history, now, window))
  {
    var cut := CutExists(history, now, window);
    RecentIsSuffix(history, now, window, cut);
  }

  // Keeping the last 200 failures of a non-decreasing history never changes the decision while
  // the threshold is within 200, and keeps the breaker closed for good above it.
  lemma BoundedBreakerExact(history: seq<int>, now: int, threshold: int, window: int, cooldown: int)
    requires Sorted(history) && threshold >= 1
    ensures CircuitOpen(LastN(history, 200), now, threshold, window, cooldown) ==
      if threshold <= 200 then CircuitOpen(history, now, threshold, window, cooldown) else Some(false)
  {
    RecentOfKept(history, FAILURE_HISTORY, now, window);
    RecentIsSorted(history, now, window);
    var recent := Recent(history, now, window);
    if recent != [] {
      SortedMaxIsLast(recent);
      SortedMaxIsLast(LastN(recent, FAILURE_HISTORY));
    }
  }

  // ---- The decision over time, with no new failures ----

  lemma {:induction false} RecentShrinks(times: seq<int>, now: int, later: int, window: int)
    requires now <= later
    ensures |Recent(times, later, window)| <= |Recent(times, now, window)|
  {
    if times != [] {
      RecentShrinks(times[1..], now, later, window);
    }
  }

  // A closed breaker stays closed.
  lemma ClosedStaysClosed(times: seq<int>, now: int, later: int, threshold: int, window: int, cooldown: int)
    requires now <= later
    requires CircuitOpen(times, later, threshold, window, cooldown) == Some(true)
    ensures CircuitOpen(times, now, threshold, window, cooldown) == Some(true)
  {
    RecentShrinks(times, now, later, window);
    var before, after := Recent(times, now, window), Recent(times, later, window);
    assert MaxOf(after) in before;
  }

  // An open breaker closes within the cooldown of the latest failure.
  lemma ClosesWithinCooldown(times: seq<int>, now: int, threshold: int, window: int, cooldown: int)
    requires forall t :: t in times ==> now - t >= cooldown
    ensures CircuitOpen(times, now, threshold, window, cooldown) != Some(true)
  {
    var recent := Recent(times, now, window);
    if recent != [] {
      assert MaxOf(recent) in times;
    }
  }

  // ---- What an open breaker says about sessions ----

  datatype Failure = Failure(session: nat, time: int)

  function Times(failures: seq<Failure>): (r: seq<int>)
    ensures |r| == |failures| && forall i :: 0 <= i < |r| ==> r[i] == failures[i].time
  {
    if failures == [] then [] else [failures[0].time] + Times(failures[1..])
  }

  function FailedWithin(failures: seq<Failure>, now: int, window: int): set<nat> {
    set f | f in failures && now - f.time <= window :: f.session
  }

  lemma NobodyFailed(now: int, window: int)
    ensures FailedWithin([], now, window) == {}
  {
  }

  lemma FailedCons(failures: seq<Failure>, now: int, window: int)
    requires failures != []
    requires forall i, j :: 0 <= i < j < |failures| ==> failures[i].session != failures[j].session
    ensures var here := if now - failures[0].time <= window then {failures[0].session} else {};
      && FailedWithin(failures, now, window) == here + FailedWithin(failures[1..], now, window)
      && failures[0].session !in FailedWithin(failures[1..], now, window)
  {
    assert failures == [failures[0]] + failures[1..];
    assert forall f :: f in failures[1..] ==> f.session != failures[0].session;
  }

  lemma {:induction false} SessionsCounted(failures: seq<Failure>, now: int, window: int)
    requires forall i, j :: 0 <= i < j < |failures| ==> failures[i].session != failures[j].session
    ensures |FailedWithin(failures, now, window)| == |Recent(Times(failures), now, window)|
  {
    hide FailedWithin;
    if failures == [] {
      NobodyFailed(now, window);
    } else {
      var rest := failures[1..];
      SessionsCounted(rest, now, window);
      assert Times(failures)[1..] == Times(rest);
      FailedCons(failures, now, window);
    }
  }

  // If each failed session leaves one timestamp, an open breaker means that at least
  // `threshold` sessions failed within the window.
  lemma OpenMeansSessionsFailed(failures: seq<Failure>, now: int, threshold: int, window: int, cooldown: int)
    requires forall i, j :: 0 <= i < j < |failures| ==> failures[i].session != failures[j].session
    requires CircuitOpen(LastN(Times(failures), FAILURE_HISTORY), now, threshold, window, cooldown) == Some(true)
    ensures |FailedWithin(failures, now, window)| >= threshold
  {
    SessionsCounted(failures, now, window);
    var all := Times(failures);
    RecentOfSuffix(all, |all| - |LastN(all, FAILURE_HISTORY)|, now, window);
  }

  lemma {:induction false} RecentOfSuffix(times: seq<int>, from: nat, now: int, window: int)
    requires from <= |times|
    ensures |Recent(times[from..], now, window)| <= |Recent(times, now, window)|
  {
    if from > 0 {
      RecentOfSuffix(times[1..], from - 1, now, window);
      assert times[from..] == times[1..][from - 1..];
    } else {
      assert times[0..] == times;
    }
  }
}
