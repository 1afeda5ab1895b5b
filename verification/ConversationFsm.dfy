// The conversation state machine as objects: the FSM, the session it reconfigures and the call
// record all three share through the store. Every method is one of PhaseMachine's operations.
module ConversationFsm {
  import opened Models
  import opened ToolCatalog
  import PM = PhaseMachine
  import SP = SessionProtocol
  import OQ = OrderedQuery
  import opened Registry

  // The session as the FSM and the tool handlers use it.
  class SessionManager {
    var responseReady: bool
    var closingIntentionally: bool
    var registered: bool
    var turnCounter: nat
    ghost var turns: OQ.Turns     // the transcript rows the counter numbers
    var offered: seq<Tool>        // the tool list of the last session.update

    constructor (offered: seq<Tool>)
      ensures responseReady && !closingIntentionally && registered
      ensures turnCounter == 0 && OQ.Run([]) == Some(turns)
      ensures this.offered == offered
    {
      responseReady, closingIntentionally, registered := true, false, true;
      turnCounter, turns := 0, OQ.Turns(0, {}, []);
      this.offered := offered;
    }

    method SendSessionUpdate(tools: seq<Tool>)
      modifies this`offered
      ensures offered == tools
    {
      offered := tools;
    }

    // send_event(response.create) up to its suspension, as the protocol's step.
    method BeginCreate(ghost g: SP.Shared, d: SP.Delivery)
      requires g.ready == responseReady
      modifies this`responseReady
      ensures responseReady == SP.BeginCreate(g, d).ready
    {
      responseReady := false;
    }

    // The rest of it, after whatever other tasks did to the gate meanwhile.
    method EndCreate(ghost g: SP.Shared, d: SP.Delivery)
      requires g.ready == responseReady
      modifies this`responseReady
      ensures responseReady == SP.EndCreate(g, d).ready
    {
      if d.Refused? {
        responseReady := true;
      }
    }

    // The two together, undisturbed: only a failure leaves the gate open.
    method SendResponseCreate(ghost g: SP.Shared, d: SP.Delivery)
      requires g.ready == responseReady
      modifies this`responseReady
      ensures responseReady == SP.EndCreate(SP.BeginCreate(g, d), d).ready == d.Refused?
    {
      BeginCreate(g, d);
      EndCreate(SP.BeginCreate(g, d), d);
    }

    method Close()
      modifies this`closingIntentionally
      ensures closingIntentionally
    {
      closingIntentionally := true;
    }

    // The index of a transcript turn, taken before its save can suspend.
    method TakeTurnIndex() returns (index: nat)
      requires turnCounter == turns.counter
      modifies this`turnCounter, this`turns
      ensures Some(turns) == OQ.Step(old(turns), OQ.Speak) && turnCounter == turns.counter
      ensures index == old(turnCounter) && index in turns.saving
    {
      index := turnCounter;
      turnCounter := turnCounter + 1;
      turns := OQ.Turns(turns.counter + 1, turns.saving + {turns.counter}, turns.rows);
    }
  }

  class ConversationFSM {
    const callId: string
    const store: StateStore
    const sm: SessionManager
    var phase: ConvPhase
    var turnsInPhase: nat
    var phaseToolsCalled: set<Tool>
    ghost var history: seq<PM.Observation>

    constructor (callId: string, store: StateStore, sm: SessionManager)
      ensures this.callId == callId && this.store == store && this.sm == sm
      ensures phase == Greeting && turnsInPhase == 0 && phaseToolsCalled == {} && history == []
    {
      this.callId, this.store, this.sm := callId, store, sm;
      phase, turnsInPhase, phaseToolsCalled, history := Greeting, 0, {}, [];
    }

    // The stored record, if there is one.
    ghost function Record(): set<Call>
      reads store
    {
      if callId in store.calls then {store.calls[callId]} else {}
    }

    ghost function View(): PM.Core
      reads this, store, sm, Record()
    {
      PM.Core(phase, turnsInPhase, phaseToolsCalled,
              if callId in store.calls then
                var c := store.calls[callId];
                Some(PM.CallRecord(c.accountId, c.phase, c.category, c.state, c.hangupCause,
                                   c.escalated, c.frustration, c.toolFailures))
              else None,
              sm.offered, history)
    }

    predicate IsToolAlreadyCalled(tool: Tool)
      reads this
    {
      tool in phaseToolsCalled
    }

    // The duplicate check of a handler that has just taken the lock.
    method CheckDuplicate(tool: Tool) returns (duplicate: bool)
      ensures duplicate == (IsOneCall(tool) && tool in View().called)
    {
      duplicate := IsOneCall(tool) && IsToolAlreadyCalled(tool);
    }

    method RecordToolCalled(tool: Tool)
      modifies this
      ensures View() == PM.RecordTool(old(View()), tool)
    {
      phaseToolsCalled := phaseToolsCalled + {tool};
      history := history + [PM.Completed(tool)];
    }

    // Up to the socket send of the session.update.
    method Enter(target: ConvPhase)
      requires store.Valid()
      modifies this, sm`offered, store`calls, store`callsFailed, Record()
      ensures store.Valid() && store.calls == old(store.calls)
      ensures View() == PM.Enter(old(View()), target)
    {
      phase := target;
      turnsInPhase := 0;
      phaseToolsCalled := {};
      var call := store.GetCall(callId);
      if call != null {
        call.phase := target;
        store.UpdateCall(call);
      }
      var category := if call != null then call.category else None;
      var tools := ToolsForPhase(target, category);
      sm.SendSessionUpdate(tools);
      history := history + [PM.Entered(target)];
    }

    method EndSession()
      requires store.Valid()
      modifies this`history, sm`closingIntentionally, store`calls, store`callsFailed, Record()
      ensures store.Valid() && store.calls == old(store.calls)
      ensures View() == PM.EndSession(old(View()))
      ensures sm.registered ==> sm.closingIntentionally
    {
      var call := store.GetCall(callId);
      if call != null {
        call.state := Ended;
        call.hangupCause := Some("normal");
        store.UpdateCall(call);
      }
      if sm.registered {
        sm.Close();
      }
      history := history + [PM.EndRequested];
    }

    method Advance() returns (signal: PM.Signal)
      requires store.Valid()
      modifies this, sm`offered, sm`closingIntentionally, store`calls, store`callsFailed, Record()
      ensures store.Valid() && store.calls == old(store.calls)
      ensures PM.Outcome(View(), signal) == PM.Advance(old(View()))
    {
      hide ToolList;
      var idx := OrderIndex(phase);
      if idx >= |PHASE_ORDER| - 1 {
        EndSession();
        return PM.SessionEnded;
      }
      var nextPhase := PHASE_ORDER[idx + 1];
      if nextPhase == Verify {
        var call := store.GetCall(callId);
        if call != null && call.accountId != "" {
          nextPhase := PHASE_ORDER[idx + 2];
        }
      }
      Enter(nextPhase);
      signal := PM.PhaseEntered;
    }

    method Transition(target: ConvPhase) returns (signal: PM.Signal)
      requires store.Valid()
      modifies this, sm`offered, store`calls, store`callsFailed, Record()
      ensures store.Valid() && store.calls == old(store.calls)
      ensures PM.Outcome(View(), signal) == PM.Transition(old(View()), target)
    {
      if target == phase {
        return PM.Quiet;
      }
      Enter(target);
      signal := PM.PhaseEntered;
    }

    // Called on each completed response.
    method RecordTurn(st: PM.Settings) returns (signal: PM.Signal)
      requires store.Valid()
      modifies this, sm`offered, sm`closingIntentionally, store`calls, store`callsFailed, Record()
      ensures store.Valid() && store.calls == old(store.calls)
      ensures PM.Outcome(View(), signal) == PM.RecordTurn(old(View()), st)
    {
      hide PM.Advance;
      turnsInPhase := turnsInPhase + 1;
      history := history + [PM.Turn];
      var limit := st.maxTurnsPerPhase;
      if phase == Triage {
        limit := 2;
      } else if phase == Diagnose {
        limit := 4;
      }
      assert View() == PM.Note(old(View()).(turns := old(View()).turns + 1), PM.Turn);
      signal := PM.Quiet;
      if turnsInPhase >= limit {
        signal := Advance();
      }
    }

    // Up to the first suspension: claim the call if a limit is exceeded and nobody has claimed it.
    method CheckEscalation(st: PM.Settings) returns (signal: PM.Signal)
      requires store.Valid()
      modifies this`history, store`calls, store`callsFailed, Record()
      ensures store.Valid() && store.calls == old(store.calls)
      ensures PM.Outcome(View(), signal) == PM.CheckEscalation(old(View()), st)
    {
      signal := PM.Quiet;
      var call := store.GetCall(callId);
      if call == null {
        return;
      }
      var shouldEscalate := call.frustration >= st.frustrationLimit || call.toolFailures >= st.toolFailureLimit;
      if shouldEscalate && !call.escalated {
        call.escalated := true;
        call.hangupCause := Some("escalated");
        call.state := Transferring;
        store.UpdateCall(call);
        history := history + [PM.Escalated];
        signal := PM.EscalationStarted;
      }
    }

    method RecordFrustration(st: PM.Settings) returns (signal: PM.Signal)
      requires store.Valid()
      modifies this`history, store`calls, store`callsFailed, Record()
      ensures store.Valid() && store.calls == old(store.calls)
      ensures PM.Outcome(View(), signal) == PM.Apply(old(View()), PM.CallerFrustrated, st)
    {
      var call := store.GetCall(callId);
      if call != null {
        call.frustration := call.frustration + 1;
        store.UpdateCall(call);
      }
      signal := CheckEscalation(st);
    }

    // ---- The stretches of the tool handlers between two suspensions ----

    // phase_complete past the gate: record a valid category while in TRIAGE, then advance.
    method CompletePhase(category: Option<string>, st: PM.Settings) returns (signal: PM.Signal)
      requires store.Valid()
      modifies this, sm`offered, sm`closingIntentionally, store`calls, store`callsFailed, Record()
      ensures store.Valid() && store.calls == old(store.calls)
      ensures PM.Outcome(View(), signal) == PM.Apply(old(View()), PM.PhaseCompleted(category), st)
    {
      hide PM.Advance;
      if category.Some? && category.value != "" {
        var call := store.GetCall(callId);
        if call != null && call.phase == Triage && category.value in SERVICE_CATEGORIES {
          call.category := category;
          store.UpdateCall(call);
          history := history + [PM.CategorySet(category.value)];
        }
      }
      assert View() == PM.SetCategory(old(View()), category);
      signal := Advance();
    }

    // report_new_issue past the gate.
    method ReportNewIssue(st: PM.Settings) returns (signal: PM.Signal)
      requires store.Valid()
      modifies this, sm`offered, store`calls, store`callsFailed, Record()
      ensures store.Valid() && store.calls == old(store.calls)
      ensures PM.Outcome(View(), signal) == PM.Apply(old(View()), PM.NewIssue, st)
    {
      hide PM.Transition;
      if phase != Triage {
        history := history + [PM.LoopedBack];
      }
      signal := Transition(Triage);
    }

    // A tool returned, timed out or raised. The hand-over to an agent checks no escalation of its own, and
    // closes the session even when the guard refused it.
    method FinishTool(tool: Tool, ok: bool, allowed: bool, st: PM.Settings) returns (signal: PM.Signal)
      requires store.Valid()
      modifies this, sm`closingIntentionally, store`calls, store`callsFailed, Record()
      ensures store.Valid() && store.calls == old(store.calls)
      ensures PM.Outcome(View(), signal) ==
        PM.Apply(old(View()), if ok then PM.ToolSucceeded(tool, allowed) else PM.ToolFailed(tool), st)
      ensures sm.closingIntentionally == (old(sm.closingIntentionally) || (ok && tool.EscalateToAgent?))
    {
      signal := PM.Quiet;
      if ok {
        if tool.EscalateToAgent? && allowed {
          MarkReferred();
        }
        RecordToolCalled(tool);
      } else {
        IncrementToolFailure();
      }
      if !tool.EscalateToAgent? {
        signal := CheckEscalation(st);
      } else if ok {
        sm.Close();
        history := history + [PM.AgentClose(allowed)];
      }
    }

    // call_controller.refer once its request has been accepted.
    method MarkReferred()
      requires store.Valid()
      modifies store`calls, store`callsFailed, Record()
      ensures store.Valid() && store.calls == old(store.calls)
      ensures View() == PM.MarkTransferring(old(View()))
    {
      var call := store.GetCall(callId);
      if call != null {
        call.state := Transferring;
        call.hangupCause := Some("transferred");
        store.UpdateCall(call);
      }
    }

    method IncrementToolFailure()
      requires store.Valid()
      modifies store`calls, store`callsFailed, Record()
      ensures store.Valid() && store.calls == old(store.calls)
      ensures View() == PM.CountToolFailure(old(View()))
    {
      var call := store.GetCall(callId);
      if call != null {
        call.toolFailures := call.toolFailures + 1;
        store.UpdateCall(call);
      }
    }
  }
}
