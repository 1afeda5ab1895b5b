// The lazily reset daily cost, its alert, and the admission gate that reads it.
// Dates are day numbers; costs are real amounts.
module Budget {
  import opened Models

  // The store's three cost fields.
  datatype Day = Day(date: int, cost: real, alerted: bool)

  datatype Spend = Spend(date: int, cost: real)

  predicate LimitReached(cost: real, limit: real) {
    limit > 0.0 && cost >= limit
  }

  // The cost part of record_token_usage: reset if the date rolled, add, decide on the alert.
  function Rolled(d: Day, today: int): Day {
    if today != d.date then Day(today, 0.0, false) else d
  }

  function Fires(d: Day, spend: Spend, limit: real): bool {
    var r := Rolled(d, spend.date);
    !r.alerted && LimitReached(r.cost + spend.cost, limit)
  }

  function Record(d: Day, spend: Spend, limit: real): Day {
    var r := Rolled(d, spend.date);
    Day(spend.date, r.cost + spend.cost, r.alerted || Fires(d, spend, limit))
  }

  // get_daily_cost_usd
  function CostOn(d: Day, today: int): real {
    if today != d.date then 0.0 else d.cost
  }

  // The fields after a whole history, from a process started on `start`.
  function After(start: int, history: seq<Spend>, limit: real): Day {
    if history == [] then Day(start, 0.0, false)
    else Record(After(start, history[..|history| - 1], limit), history[|history| - 1], limit)
  }

  // ---- The reference: sums over the full history ----

  function SpentOn(history: seq<Spend>, date: int): real {
    if history == [] then 0.0
    else
      var last := history[|history| - 1];
      SpentOn(history[..|history| - 1], date) + (if last.date == date then last.cost else 0.0)
  }

  // Dates never go back, and costs are never negative.
  ghost predicate Orderly(start: int, history: seq<Spend>) {
    && (forall i :: 0 <= i < |history| ==> start <= history[i].date && history[i].cost >= 0.0)
    && (forall i, j :: 0 <= i < j < |history| ==> history[i].date <= history[j].date)
  }

  lemma {:induction false} NothingSpentYet(history: seq<Spend>, date: int)
    requires forall i :: 0 <= i < |history| ==> history[i].date < date
    ensures SpentOn(history, date) == 0.0
  {
    if history != [] {
      NothingSpentYet(history[..|history| - 1], date);
    }
  }

  lemma {:induction false} SpendingGrows(history: seq<Spend>, n: nat, date: int)
    requires n <= |history| && forall i :: 0 <= i < |history| ==> history[i].cost >= 0.0
    ensures 0.0 <= SpentOn(history[..n], date) <= SpentOn(history, date)
    decreases |history|
  {
    if n == |history| {
      assert history[..n] == history;
      if history != [] {
        SpendingGrows(history[..n - 1], n - 1, date);
      }
    } else {
      SpendingGrows(history[..|history| - 1], n, date);
      assert history[..|history| - 1][..n] == history[..n];
    }
  }

  // The bounded fields are exact: total of the current day, and alerted iff it reached the limit.
  lemma {:induction false} DailyTotalExact(start: int, history: seq<Spend>, limit: real)
    requires Orderly(start, history)
    ensures var d := After(start, history, limit);
      && d.date == (if history == [] then start else history[|history| - 1].date)
      && d.cost == SpentOn(history, d.date)
      && (d.alerted <==> limit > 0.0 && d.cost >= limit)
  {
    if history != [] {
      var before := history[..|history| - 1];
      DailyTotalExact(start, before, limit);
      var last := history[|history| - 1];
      if last.date != After(start, before, limit).date {
        if before != [] {
          assert before[|before| - 1] == history[|history| - 2];
        }
        NothingSpentYet(before, last.date);
      }
    }
  }

  // A reading on any day not before the last usage is that day's spending.
  lemma ReadingExact(start: int, history: seq<Spend>, limit: real, today: int)
    requires Orderly(start, history) && start <= today
    requires history != [] ==> history[|history| - 1].date <= today
    ensures CostOn(After(start, history, limit), today) == SpentOn(history, today)
  {
    DailyTotalExact(start, history, limit);
    if today != After(start, history, limit).date {
      NothingSpentYet(history, today);
    }
  }

  // Whether usage number i fired the alert.
  predicate FiredAt(start: int, history: seq<Spend>, limit: real, i: nat)
    requires i < |history|
  {
    Fires(After(start, history[..i], limit), history[i], limit)
  }

  lemma PrefixOrderly(start: int, history: seq<Spend>, n: nat)
    requires Orderly(start, history) && n <= |history|
    ensures Orderly(start, history[..n])
  {
  }

  // The alert fires exactly at the usage that first takes its day to the limit.
  lemma AlertAtFirstCrossing(start: int, history: seq<Spend>, limit: real, i: nat)
    requires Orderly(start, history) && i < |history|
    ensures FiredAt(start, history, limit, i) <==>
      limit > 0.0 && SpentOn(history[..i], history[i].date) < limit <= SpentOn(history[..i + 1], history[i].date)
  {
    PrefixOrderly(start, history, i);
    DailyTotalExact(start, history[..i], limit);
    assert history[..i + 1][..i] == history[..i];
    var d := After(start, history[..i], limit);
    if d.date != history[i].date {
      if i > 0 {
        assert d.date == history[i - 1].date;
      }
      NothingSpentYet(history[..i], history[i].date);
    }
  }

  // At most once a day.
  lemma AlertOncePerDay(start: int, history: seq<Spend>, limit: real, i: nat, j: nat)
    requires Orderly(start, history) && i < j < |history| && history[i].date == history[j].date
    requires FiredAt(start, history, limit, i)
    ensures !FiredAt(start, history, limit, j)
  {
    AlertAtFirstCrossing(start, history, limit, i);
    AlertAtFirstCrossing(start, history, limit, j);
    SpendingGrows(history[..j], i + 1, history[j].date);
    assert history[..j][..i + 1] == history[..i + 1];
  }

  // ---- Admission ----

  datatype Verdict = Accept | RejectMaintenance | RejectBudget | RejectCircuit | Crash

  // The gates of an incoming call, in the order they are asked.
  function Admit(maintenance: bool, dailyCost: real, limit: real, circuitOpen: Option<bool>): Verdict {
    if maintenance then RejectMaintenance
    else if limit > 0.0 && dailyCost >= limit then RejectBudget
    else if circuitOpen.None? then Crash
    else if circuitOpen.value then RejectCircuit
    else Accept
  }

  // After the alert, every later call of that day is rejected, whatever is spent meanwhile.
  lemma AlertClosesTheDay(start: int, history: seq<Spend>, limit: real, i: nat, maintenance: bool,
                          circuitOpen: Option<bool>)
    requires Orderly(start, history) && i < |history| && FiredAt(start, history, limit, i)
    requires history[|history| - 1].date == history[i].date
    ensures Admit(maintenance, CostOn(After(start, history, limit), history[i].date), limit, circuitOpen)
      == if maintenance then RejectMaintenance else RejectBudget
  {
    AlertAtFirstCrossing(start, history, limit, i);
    ReadingExact(start, history, limit, history[i].date);
    SpendingGrows(history, i + 1, history[i].date);
  }
}
