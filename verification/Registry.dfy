// The in-memory registry: calls by reference, token totals, daily cost, logs and channel health.
module Registry {
  import opened Models
  import Breaker
  import Budget
  import Ledger
  import LogPaging

  class TokenAggregate {
    var total: nat
    var input: nat
    var output: nat
    var inputText: nat
    var inputAudio: nat
    var inputCached: nat
    var outputText: nat
    var outputAudio: nat
    var responses: nat
    var cost: real

    ghost function View(): Ledger.Totals
      reads this
    {
      Ledger.Totals(total, input, output, inputText, inputAudio, inputCached, outputText, outputAudio, responses, cost)
    }

    constructor (t: Ledger.Totals)
      ensures View() == t
    {
      total, input, output := t.total, t.input, t.output;
      inputText, inputAudio, inputCached := t.inputText, t.inputAudio, t.inputCached;
      outputText, outputAudio := t.outputText, t.outputAudio;
      responses, cost := t.responses, t.cost;
    }

    method Add(u: Ledger.Usage, amount: real)
      modifies this
      ensures View() == Ledger.Plus(old(View()), Ledger.One(u, amount))
    {
      total := total + u.total;
      input := input + u.input;
      output := output + u.output;
      inputText := inputText + u.inputText;
      inputAudio := inputAudio + u.inputAudio;
      inputCached := inputCached + u.inputCached;
      outputText := outputText + u.outputText;
      outputAudio := outputAudio + u.outputAudio;
      responses := responses + 1;
      cost := cost + amount;
    }
  }

  // A past call's row. None stands for a missing or unknown state or phase.
  datatype Cdr = Cdr(
    callId: string, accountId: string, state: Option<CallState>, phase: Option<ConvPhase>,
    hangupCause: Option<string>, escalated: bool, frustration: nat, toolFailures: nat,
    answeredAt: Option<int>, endedAt: Option<int>, duration: Option<int>, totals: Ledger.Totals)

  function Loads(cdrs: seq<Cdr>): (r: seq<(string, Ledger.Totals)>)
    ensures |r| == |cdrs| && forall i :: 0 <= i < |r| ==> r[i] == (cdrs[i].callId, cdrs[i].totals)
  {
    if cdrs == [] then [] else Loads(cdrs[..|cdrs| - 1]) + [(cdrs[|cdrs| - 1].callId, cdrs[|cdrs| - 1].totals)]
  }

  lemma LoadsPrefix(cdrs: seq<Cdr>, n: nat)
    requires n < |cdrs|
    ensures Loads(cdrs[..n + 1]) == Loads(cdrs[..n]) + [(cdrs[n].callId, cdrs[n].totals)]
  {
    assert cdrs[..n + 1][..n] == cdrs[..n];
  }

  // The call record, shared by everyone who got it from the store.
  class Call {
    const callId: string
    const tokens: TokenAggregate
    var accountId: string
    var phase: ConvPhase
    var category: Option<string>
    var state: CallState
    var hangupCause: Option<string>
    var escalated: bool
    var frustration: nat
    var toolFailures: nat
    var answeredAt: Option<int>
    var endedAt: Option<int>
    var duration: Option<int>

    constructor (callId: string, accountId: string, state: CallState, phase: ConvPhase, totals: Ledger.Totals)
      ensures this.callId == callId && this.accountId == accountId && this.state == state && this.phase == phase
      ensures category.None? && hangupCause.None? && !escalated && frustration == 0 && toolFailures == 0
      ensures answeredAt.None? && endedAt.None? && duration.None?
      ensures fresh(tokens) && tokens.View() == totals
    {
      this.callId, this.accountId, this.state, this.phase := callId, accountId, state, phase;
      category, hangupCause, escalated, frustration, toolFailures := None, None, false, 0, 0;
      answeredAt, endedAt, duration := None, None, None;
      tokens := new TokenAggregate(totals);
    }

    // A record restored from its row. An unknown state counts as ENDED, an unknown phase as WRAP_UP, and the
    // category is not restored.
    constructor Past(cdr: Cdr)
      ensures Restores(cdr) && fresh(tokens) && tokens.View() == cdr.totals
    {
      callId, accountId := cdr.callId, cdr.accountId;
      state := if cdr.state.Some? then cdr.state.value else Ended;
      phase := if cdr.phase.Some? then cdr.phase.value else WrapUp;
      category, hangupCause := None, cdr.hangupCause;
      escalated, frustration, toolFailures := cdr.escalated, cdr.frustration, cdr.toolFailures;
      answeredAt, endedAt, duration := cdr.answeredAt, cdr.endedAt, cdr.duration;
      tokens := new TokenAggregate(cdr.totals);
    }

    ghost predicate Restores(cdr: Cdr)
      reads this
    {
      && callId == cdr.callId && accountId == cdr.accountId
      && (cdr.state.Some? ==> state == cdr.state.value) && (cdr.state.None? ==> state == Ended)
      && (cdr.phase.Some? ==> phase == cdr.phase.value) && (cdr.phase.None? ==> phase == WrapUp)
      && hangupCause == cdr.hangupCause && category.None?
      && escalated == cdr.escalated && frustration == cdr.frustration && toolFailures == cdr.toolFailures
      && answeredAt == cdr.answeredAt && endedAt == cdr.endedAt && duration == cdr.duration
    }
  }

  predicate IsFirstRow(cdrs: seq<Cdr>, i: nat) {
    i < |cdrs| && cdrs[i].callId !in Ids(cdrs[..i])
  }

  function Ids(cdrs: seq<Cdr>): set<string> {
    set cdr | cdr in cdrs :: cdr.callId
  }

  lemma IdsPrefix(cdrs: seq<Cdr>, n: nat)
    requires n < |cdrs|
    ensures Ids(cdrs[..n + 1]) == Ids(cdrs[..n]) + {cdrs[n].callId}
  {
    assert cdrs[..n + 1] == cdrs[..n] + [cdrs[n]];
  }

  lemma NothingLoads()
    ensures Loads([]) == [] && Ids([]) == {}
  {
  }

  class StateStore {
    var calls: map<string, Call>
    const globalTokens: TokenAggregate
    const logBufferSize: nat
    var logBuffer: seq<LogPaging.Entry>
    var logSeq: nat
    ghost var issued: seq<LogPaging.Entry>
    var wsErrors: seq<int>
    var reconnectFailures: seq<int>
    var callsToday: nat
    var callsFailed: nat
    var dailyCost: real
    var dailyCostDate: int
    var budgetAlertFired: bool
    var maintenanceMode: bool

    // Every record is filed under its own id, with a token aggregate of its own.
    ghost predicate Valid()
      reads this
    {
      && (forall id :: id in calls ==> calls[id].callId == id && calls[id].tokens != globalTokens)
      && (forall i, j :: i in calls && j in calls && i != j ==> calls[i].tokens != calls[j].tokens)
    }

    ghost predicate Bounded()
      reads this
    {
      |logBuffer| <= logBufferSize && |wsErrors| <= Breaker.ERROR_HISTORY
        && |reconnectFailures| <= Breaker.FAILURE_HISTORY
    }

    ghost function Aggregates(): set<TokenAggregate>
      reads this
    {
      set id | id in calls :: calls[id].tokens
    }

    ghost function Book(): Ledger.Book
      reads this, globalTokens, Aggregates()
    {
      Ledger.Book(map id | id in calls :: calls[id].tokens.View(), globalTokens.View())
    }

    ghost function Day(): Budget.Day
      reads this
    {
      Budget.Day(dailyCostDate, dailyCost, budgetAlertFired)
    }

    constructor (logBufferSize: nat, today: int)
      ensures Valid() && Bounded() && calls == map[] && fresh(globalTokens)
      ensures Book() == Ledger.After([])
      ensures Day() == Budget.After(today, [], 0.0)
      ensures IdsIssued() && issued == []
      ensures logBuffer == [] && logSeq == 0 && this.logBufferSize == logBufferSize
      ensures wsErrors == [] && reconnectFailures == [] && !maintenanceMode
    {
      calls := map[];
      globalTokens := new TokenAggregate(Ledger.ZERO);
      this.logBufferSize := logBufferSize;
      logBuffer, logSeq, issued := [], 0, [];
      wsErrors, reconnectFailures := [], [];
      callsToday, callsFailed := 0, 0;
      dailyCost, dailyCostDate, budgetAlertFired := 0.0, today, false;
      maintenanceMode := false;
    }

    // ---- Calls ----

    method CreateCall(call: Call)
      requires Valid()
      requires call.tokens != globalTokens && call.tokens !in Aggregates() && call.tokens.View() == Ledger.ZERO
      modifies this`calls, this`callsToday
      ensures Valid() && calls == old(calls)[call.callId := call]
      ensures Book() == Ledger.Register(old(Book()), call.callId)
      ensures callsToday == old(callsToday) + 1
    {
      calls := calls[call.callId := call];
      callsToday := callsToday + 1;
      assert Book().calls == old(Book()).calls[call.callId := Ledger.ZERO];
    }

    // Files the record under its id, whatever is there: nothing but the failure count changes for the record
    // the store holds, and a stale one, whose id was registered again, comes back with its own totals.
    method UpdateCall(call: Call)
      requires Valid()
      requires call.tokens != globalTokens
      requires forall id :: id in calls && id != call.callId ==> calls[id].tokens != call.tokens
      modifies this`calls, this`callsFailed
      ensures Valid() && calls == old(calls)[call.callId := call]
      ensures old(call.callId in calls && calls[call.callId] == call) ==> calls == old(calls)
      ensures Book() == Ledger.Restore(old(Book()), call.callId, call.tokens.View())
      ensures callsFailed == old(callsFailed) + (if call.state == Failed then 1 else 0)
    {
      if call.state == Failed {
        callsFailed := callsFailed + 1;
      }
      calls := calls[call.callId := call];
      assert Book().calls == old(Book()).calls[call.callId := call.tokens.View()];
    }

    // The record itself, not a copy.
    method GetCall(callId: string) returns (call: Call?)
      ensures callId in calls ==> call == calls[callId]
      ensures callId !in calls ==> call == null
    {
      call := if callId in calls then calls[callId] else null;
    }

    // ---- Tokens and daily cost ----

    // The call's aggregate, if there is one, and the global one each take the usage.
    method AddTokens(u: Ledger.Usage, cost: real)
      requires Valid()
      modifies globalTokens, if u.callId in calls then {calls[u.callId].tokens} else {}
      ensures Book() == Ledger.RecordUsage(old(Book()), u, cost)
      ensures Valid() && Day() == old(Day())
    {
      hide Ledger.Plus, Ledger.One;
      if u.callId in calls {
        calls[u.callId].tokens.Add(u, cost);
      }
      globalTokens.Add(u, cost);
      assert Book().calls == Ledger.RecordUsage(old(Book()), u, cost).calls;
    }

    // The daily total, reset when the date has rolled; says whether to publish the alert.
    method AddCost(cost: real, today: int, limit: real) returns (alert: bool)
      modifies this`dailyCost, this`dailyCostDate, this`budgetAlertFired
      ensures alert == Budget.Fires(old(Day()), Budget.Spend(today, cost), limit)
      ensures Day() == Budget.Record(old(Day()), Budget.Spend(today, cost), limit)
      ensures Book() == old(Book()) && Valid() == old(Valid())
    {
      if today != dailyCostDate {
        dailyCostDate := today;
        dailyCost := 0.0;
        budgetAlertFired := false;
      }
      dailyCost := dailyCost + cost;
      alert := !budgetAlertFired && limit > 0.0 && dailyCost >= limit;
      if alert {
        budgetAlertFired := true;
      }
    }

    method RecordTokenUsage(u: Ledger.Usage, prices: Ledger.Prices, today: int, limit: real) returns (alert: bool)
      requires Valid()
      modifies this`dailyCost, this`dailyCostDate, this`budgetAlertFired, globalTokens,
               if u.callId in calls then {calls[u.callId].tokens} else {}
      ensures Valid()
      ensures Book() == Ledger.RecordUsage(old(Book()), u, Ledger.ComputeCost(u, prices))
      ensures alert == Budget.Fires(old(Day()), Budget.Spend(today, Ledger.ComputeCost(u, prices)), limit)
      ensures Day() == Budget.Record(old(Day()), Budget.Spend(today, Ledger.ComputeCost(u, prices)), limit)
    {
      hide Ledger.ComputeCost, Ledger.RecordUsage, Budget.Fires, Budget.Record, Book, Valid;
      var cost := Ledger.ComputeCost(u, prices);
      AddTokens(u, cost);
      alert := AddCost(cost, today, limit);
    }

    method GetDailyCost(today: int) returns (cost: real)
      ensures cost == Budget.CostOn(Day(), today)
    {
      if today != dailyCostDate {
        return 0.0;
      }
      return dailyCost;
    }

    // A past call enters only under an id that is not taken.
    method LoadCdr(cdr: Cdr) returns (inserted: bool)
      requires Valid()
      modifies this`calls
      ensures Valid() && inserted == (cdr.callId !in old(calls))
      ensures calls.Keys == old(calls).Keys + {cdr.callId}
      ensures forall id :: id in old(calls) ==> calls[id] == old(calls[id])
      ensures inserted ==> fresh(calls[cdr.callId]) && fresh(calls[cdr.callId].tokens)
      ensures inserted ==> calls[cdr.callId].Restores(cdr)
      ensures Book() == Ledger.Preload(old(Book()), cdr.callId, cdr.totals)
    {
      hide Call.Restores;
      inserted := cdr.callId !in calls;
      if inserted {
        var call := new Call.Past(cdr);
        calls := calls[cdr.callId := call];
        assert Book().calls == old(Book()).calls[cdr.callId := cdr.totals];
      }
    }

    ghost function Records(): set<Call>
      reads this
    {
      set id | id in calls :: calls[id]
    }

    // The first n rows are in: each id not taken before has the record of its first row.
    ghost predicate Restored(cdrs: seq<Cdr>, n: nat, before: set<string>)
      reads this, Records()
    {
      forall j: nat :: j < n && IsFirstRow(cdrs, j) && cdrs[j].callId !in before ==>
        cdrs[j].callId in calls && calls[cdrs[j].callId].Restores(cdrs[j])
    }

    method LoadNext(cdrs: seq<Cdr>, i: nat, ghost before: set<string>) returns (inserted: bool)
      requires Valid() && i < |cdrs| && calls.Keys == before + Ids(cdrs[..i]) && Restored(cdrs, i, before)
      modifies this`calls
      ensures Valid() && calls.Keys == before + Ids(cdrs[..i + 1]) && Restored(cdrs, i + 1, before)
      ensures forall id :: id in old(calls) ==> id in calls && calls[id] == old(calls[id])
      ensures |calls.Keys| == |old(calls).Keys| + (if inserted then 1 else 0)
      ensures Book() == Ledger.Preload(old(Book()), cdrs[i].callId, cdrs[i].totals)
    {
      hide Ledger.Preload, Call.Restores, Book, Ids;
      IdsPrefix(cdrs, i);
      ghost var keys := calls.Keys;
      inserted := LoadCdr(cdrs[i]);
      if !inserted {
        assert calls.Keys == keys;
      }
    }

    // Live records stay; every other id gets the record of its first row.
    method LoadRecentCdrs(cdrs: seq<Cdr>) returns (loaded: nat)
      requires Valid()
      modifies this`calls
      ensures Valid() && calls.Keys == old(calls).Keys + Ids(cdrs)
      ensures Restored(cdrs, |cdrs|, old(calls).Keys)
      ensures forall id :: id in old(calls) ==> id in calls && calls[id] == old(calls[id])
      ensures |calls.Keys| == |old(calls).Keys| + loaded
      ensures Book() == Ledger.PreloadAll(old(Book()), Loads(cdrs))
    {
      hide Ledger.Preload, Restored, Valid, Book, Loads, Ids;
      loaded := 0;
      NothingLoads();
      assert Restored(cdrs, 0, calls.Keys) by { NothingRestored(cdrs, calls.Keys); }
      for i := 0 to |cdrs|
        invariant Valid() && calls.Keys == old(calls).Keys + Ids(cdrs[..i])
        invariant Restored(cdrs, i, old(calls).Keys)
        invariant forall id :: id in old(calls) ==> id in calls && calls[id] == old(calls[id])
        invariant |calls.Keys| == |old(calls).Keys| + loaded
        invariant Book() == Ledger.PreloadAll(old(Book()), Loads(cdrs[..i]))
      {
        LoadsPrefix(cdrs, i);
        assert Loads(cdrs[..i + 1])[..i] == Loads(cdrs[..i]);
        var inserted := LoadNext(cdrs, i, old(calls).Keys);
        if inserted {
          loaded := loaded + 1;
        }
      }
      assert cdrs[..|cdrs|] == cdrs;
    }

    lemma NothingRestored(cdrs: seq<Cdr>, before: set<string>)
      ensures Restored(cdrs, 0, before)
    {
    }

    // ---- Logs ----

    method AppendLog(entry: LogPaging.Entry)
      modifies this`logBuffer
      ensures logBuffer == PushBounded(old(logBuffer), entry, logBufferSize)
      ensures old(Bounded()) ==> Bounded()
    {
      logBuffer := PushBounded(logBuffer, entry, logBufferSize);
    }

    method NextLogSeq() returns (n: nat)
      modifies this`logSeq
      ensures n == logSeq == old(logSeq) + 1
    {
      logSeq := logSeq + 1;
      return logSeq;
    }

    // Every entry made so far has an id of its own.
    ghost predicate IdsIssued()
      reads this
    {
      LogPaging.DistinctIds(issued) && forall e :: e in issued ==> e.id <= logSeq
    }

    // The log handler's entry for a record. Its append is scheduled apart, so entries may reach the buffer
    // in another order, but never two with one id.
    method EmitLog(text: string) returns (entry: LogPaging.Entry)
      requires IdsIssued()
      modifies this`logSeq, this`issued
      ensures IdsIssued() && issued == old(issued) + [entry] && entry.text == text
    {
      var n := NextLogSeq();
      entry := LogPaging.Entry(n, text);
      issued := issued + [entry];
    }

    // The page and the cursor the logs route answers with.
    method GetLogs(since: int, limit: nat) returns (entries: seq<LogPaging.Entry>, next: int)
      ensures entries == LogPaging.Page(logBuffer, since, limit)
      ensures next == LogPaging.NextSeq(entries, since)
    {
      var newer := [];
      for i := 0 to |logBuffer|
        invariant newer == LogPaging.Newer(logBuffer[..i], since)
      {
        LogPaging.NewerSnoc(logBuffer[..i], logBuffer[i], since);
        assert logBuffer[..i + 1] == logBuffer[..i] + [logBuffer[i]];
        if logBuffer[i].id > since {
          newer := newer + [logBuffer[i]];
        }
      }
      assert logBuffer[..|logBuffer|] == logBuffer;
      entries := if |newer| <= limit then newer else newer[..limit];
      next := if entries != [] then entries[|entries| - 1].id else since;
    }

    // ---- Channel health ----

    method RecordWsError(now: int)
      modifies this`wsErrors
      ensures wsErrors == PushBounded(old(wsErrors), now, 1000)
      ensures old(Bounded()) ==> Bounded()
    {
      wsErrors := PushBounded(wsErrors, now, Breaker.ERROR_HISTORY);
    }

    method RecordReconnectFailure(now: int)
      modifies this`reconnectFailures
      ensures reconnectFailures == PushBounded(old(reconnectFailures), now, 200)
      ensures old(Bounded()) ==> Bounded()
    {
      reconnectFailures := PushBounded(reconnectFailures, now, Breaker.FAILURE_HISTORY);
    }

    method IsCircuitOpen(now: int, threshold: int, window: int, cooldown: int) returns (open: Option<bool>)
      ensures open == Breaker.CircuitOpen(reconnectFailures, now, threshold, window, cooldown)
    {
      var recent := Breaker.Recent(reconnectFailures, now, window);
      if |recent| < threshold {
        return Some(false);
      }
      if recent == [] {
        return None;
      }
      return Some(now - Breaker.MaxOf(recent) < cooldown);
    }

    method SetMaintenanceMode(enabled: bool)
      modifies this`maintenanceMode
      ensures maintenanceMode == enabled
    {
      maintenanceMode := enabled;
    }
  }

  datatype Gates = Gates(limit: real, threshold: int, window: int, cooldown: int)

  // The gates of an incoming call, in the order they are asked. The budget is read only if there is one.
  method AskGates(store: StateStore, now: int, today: int, g: Gates) returns (verdict: Budget.Verdict)
    ensures verdict == Budget.Admit(
      store.maintenanceMode, Budget.CostOn(store.Day(), today), g.limit,
      Breaker.CircuitOpen(store.reconnectFailures, now, g.threshold, g.window, g.cooldown))
  {
    if store.maintenanceMode {
      return Budget.RejectMaintenance;
    }
    if g.limit > 0.0 {
      var dailyCost := store.GetDailyCost(today);
      if dailyCost >= g.limit {
        return Budget.RejectBudget;
      }
    }
    var open := store.IsCircuitOpen(now, g.threshold, g.window, g.cooldown);
    if open.None? {
      return Budget.Crash;
    }
    verdict := if open.value then Budget.RejectCircuit else Budget.Accept;
  }

  // The webhook's admission: register the call, then ask the gates.
  method HandleCallIncoming(store: StateStore, callId: string, now: int, today: int, g: Gates)
      returns (verdict: Budget.Verdict, call: Call)
    requires store.Valid()
    modifies store`calls, store`callsToday
    ensures store.Valid() && fresh(call) && store.calls == old(store.calls)[callId := call]
    ensures call.callId == callId && call.state == Ringing && call.phase == Greeting && call.accountId == ""
    ensures call.category.None? && call.hangupCause.None? && !call.escalated
    ensures call.frustration == 0 && call.toolFailures == 0
    ensures call.answeredAt.None? && call.endedAt.None? && call.duration.None?
    ensures store.callsToday == old(store.callsToday) + 1
    ensures store.Book() == Ledger.Register(old(store.Book()), callId)
    ensures verdict == Budget.Admit(
      store.maintenanceMode, Budget.CostOn(store.Day(), today), g.limit,
      Breaker.CircuitOpen(store.reconnectFailures, now, g.threshold, g.window, g.cooldown))
  {
    call := new Call(callId, "", Ringing, Greeting, Ledger.ZERO);
    store.CreateCall(call);
    verdict := AskGates(store, now, today, g);
  }
}
