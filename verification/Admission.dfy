// The verdict on an incoming call, over the whole history of usage and of failed reconnects.
module Admission {
  import opened Models
  import opened Budget
  import opened Breaker

  // The failures that are at most `window` old.
  function FailuresWithin(failures: seq<int>, now: int, window: int): set<nat> {
    set i: nat | i < |failures| && now - failures[i] <= window
  }

  lemma {:induction false} RangeSize(s: set<nat>, low: nat, high: nat)
    requires low <= high && forall i: nat :: i in s <==> low <= i < high
    ensures |s| == high - low
    decreases high
  {
    if low < high {
      RangeSize(s - {high - 1}, low, high - 1);
    } else {
      assert s == {};
    }
  }

  lemma RecentCounts(failures: seq<int>, now: int, window: int)
    requires Sorted(failures)
    ensures |Recent(failures, now, window)| == |FailuresWithin(failures, now, window)|
  {
    var cut := CutExists(failures, now, window);
    RecentIsSuffix(failures, now, window, cut);
    RangeSize(FailuresWithin(failures, now, window), cut, |failures|);
  }

  // The newest failure within the window is the newest there is.
  lemma NewestIsRecent(failures: seq<int>, now: int, window: int, cooldown: int)
    requires Recent(failures, now, window) != []
    ensures now - MaxOf(Recent(failures, now, window)) >= cooldown <==>
      forall i :: 0 <= i < |failures| ==> now - failures[i] >= cooldown
  {
    var recent := Recent(failures, now, window);
    var newest := MaxOf(recent);
    assert newest in recent && newest in failures;
    var k :| 0 <= k < |failures| && failures[k] == newest;
    forall i | 0 <= i < |failures|
      ensures failures[i] <= newest
    {
      if now - failures[i] <= window {
        assert failures[i] in recent;
      }
    }
  }

  // The gate's answer from the bounded deque, in terms of all failures there ever were. It raises when a
  // non-positive threshold meets a window without failures.
  lemma GateExact(failures: seq<int>, now: int, threshold: int, window: int, cooldown: int)
    requires Sorted(failures)
    ensures var open, within := CircuitOpen(LastN(failures, 200), now, threshold, window, cooldown),
                                |FailuresWithin(failures, now, window)|;
      && (open.None? <==> threshold <= 0 && within == 0)
      && (open == Some(true) <==>
            && within > 0 && threshold <= within && threshold <= 200
            && exists i :: 0 <= i < |failures| && now - failures[i] < cooldown)
  {
    hide MaxOf, FailuresWithin;
    RecentOfKept(failures, 200, now, window);
    RecentCounts(failures, now, window);
    RecentIsSorted(failures, now, window);
    var recent := Recent(failures, now, window);
    if recent != [] {
      SortedMaxIsLast(recent);
      SortedMaxIsLast(LastN(recent, 200));
      NewestIsRecent(failures, now, window, cooldown);
    }
  }

  // For every history: who is let in, and on what ground anyone is not. The verdict is Crash where the gate raises.
  lemma VerdictExact(maintenance: bool, start: int, history: seq<Spend>, limit: real, today: int,
                     failures: seq<int>, now: int, threshold: int, window: int, cooldown: int)
    requires Orderly(start, history) && start <= today
    requires history != [] ==> history[|history| - 1].date <= today
    requires Sorted(failures)
    ensures var verdict := Admit(maintenance, CostOn(After(start, history, limit), today), limit,
                                 CircuitOpen(LastN(failures, 200), now, threshold, window, cooldown));
      var affordable := limit <= 0.0 || SpentOn(history, today) < limit;
      var within := |FailuresWithin(failures, now, window)|;
      var undecided := threshold <= 0 && within == 0;
      var calm := within < threshold || 200 < threshold
        || forall i :: 0 <= i < |failures| ==> now - failures[i] >= cooldown;
      && (verdict == RejectMaintenance <==> maintenance)
      && (verdict == RejectBudget <==> !maintenance && !affordable)
      && (verdict == Crash <==> !maintenance && affordable && undecided)
      && (verdict == RejectCircuit <==> !maintenance && affordable && !undecided && !calm)
      && (verdict == Accept <==> !maintenance && affordable && !undecided && calm)
  {
    hide CircuitOpen, CostOn, After, SpentOn, FailuresWithin, Orderly;
    ReadingExact(start, history, limit, today);
    GateExact(failures, now, threshold, window, cooldown);
  }
}
