// The main results about whole runs of a call's session, and the runs that show their limits.
module SessionTheorems {
  import opened Models
  import opened ToolCatalog
  import opened PhaseMachine
  import opened SessionProtocol
  import opened ProtocolSafety
  import opened ResponseGate

  ghost predicate Sound(s: State, st: Settings) {
    && Healthy(s.shared.core, st)
    && OncePerVisit(s.shared.core.history)
    && LockExcludes(s) && ChecksHold(s) && OneReferrer(s) && EndCloses(s)
  }

  lemma InitIsSound(call: Option<CallRecord>, st: Settings)
    requires IsNewCall(call)
    ensures Sound(Init(call), st)
  {
    hide ToolList;
    StartIsHealthy(call, st);
    assert Start(call).history == [Entered(Greeting)];
  }

  lemma StepKeepsSound(s: State, a: Action, st: Settings)
    requires Sound(s, st) && Step(s, a, st).Some?
    ensures Sound(Step(s, a, st).value, st)
  {
    hide Step, Agrees, PhaseSafe, WithinBudget, OncePerVisit, LockExcludes, ChecksHold, OneReferrer, VisitTracked,
         EscalatedOnce, EndCloses;
    StepKeepsHealthy(s, a, st);
    StepKeepsLock(s, a, st);
    StepKeepsChecks(s, a, st);
    StepKeepsOncePerVisit(s, a, st);
    StepKeepsReferrer(s, a, st);
    StepKeepsEndCloses(s, a, st);
  }

  lemma {:induction false} RunIsSound(call: Option<CallRecord>, states: seq<State>, actions: seq<Action>, st: Settings)
    requires IsNewCall(call) && IsRun(call, states, actions, st)
    ensures Sound(Final(states), st)
    decreases |actions|
  {
    hide Step, Sound, Init;
    if actions == [] {
      InitIsSound(call, st);
    } else {
      var n := |actions| - 1;
      RunIsSound(call, states[..n + 1], actions[..n], st);
      assert Step(states[n], actions[n], st) == Some(states[n + 1]);
      StepKeepsSound(states[n], actions[n], st);
    }
  }

  // ---- Main results ----

  // At every suspension point of every run the FSM and the record agree on the phase, the tools last
  // handed to the socket are those of that phase and category, and the guard refuses none of them.
  lemma PhaseStoreAndOfferAgree(call: Option<CallRecord>, states: seq<State>, actions: seq<Action>, st: Settings)
    requires IsNewCall(call) && IsRun(call, states, actions, st)
    ensures var c := Final(states).shared.core;
      && (c.call.Some? ==> c.call.value.phase == c.phase)
      && c.offered == ToolList(c.phase, CategoryOf(c.call))
      && (forall tool :: tool in c.offered ==> Intercepted(tool) || DispatchAllowed(c, tool))
  {
    hide ToolList, Canonical, GuardAllows;
    RunIsSound(call, states, actions, st);
    var c := Final(states).shared.core;
    forall tool | tool in c.offered
      ensures Intercepted(tool) || DispatchAllowed(c, tool)
    {
      if c.call.Some? {
        OfferIsCurrent(c, tool);
      }
    }
  }

  // Between two successful completions of a one-call tool under its own name there is a phase entry.
  lemma OneCallToolsCompleteOncePerVisit(call: Option<CallRecord>, states: seq<State>, actions: seq<Action>,
                                         st: Settings)
    requires IsNewCall(call) && IsRun(call, states, actions, st)
    ensures OncePerVisit(Final(states).shared.core.history)
  {
    hide IsRun;
    RunIsSound(call, states, actions, st);
  }

  // At most one handler is between taking the tool lock and ending.
  lemma HandlersAreSerial(call: Option<CallRecord>, states: seq<State>, actions: seq<Action>, st: Settings, i: nat,
                          j: nat)
    requires IsNewCall(call) && IsRun(call, states, actions, st)
    requires i < j < |Final(states).handlers|
    ensures !Holds(Final(states).handlers[i].pc) || !Holds(Final(states).handlers[j].pc)
  {
    hide IsRun;
    RunIsSound(call, states, actions, st);
  }

  // check_escalation issues at most one REFER, and only once a counter has reached its limit.
  lemma AtMostOneAutomaticRefer(call: Option<CallRecord>, states: seq<State>, actions: seq<Action>, st: Settings)
    requires IsNewCall(call) && IsRun(call, states, actions, st)
    ensures var c := Final(states).shared.core;
      && Count(c.history, AutoRefer) <= 1
      && (Count(c.history, AutoRefer) == 1 ==>
            c.call.Some? && c.call.value.escalated && OverLimit(c.call.value, st))
  {
    hide IsRun, Count;
    RunIsSound(call, states, actions, st);
  }

  // An ended conversation closes its session: after every run, once the end has been requested, close() has
  // been called or the connection loop is over.
  lemma EndedConversationsClose(call: Option<CallRecord>, states: seq<State>, actions: seq<Action>, st: Settings)
    requires IsNewCall(call) && IsRun(call, states, actions, st)
    ensures var s := Final(states);
      EndRequested in s.shared.core.history ==> s.shared.closing || s.shared.over
  {
    hide IsRun;
    RunIsSound(call, states, actions, st);
  }

  // Before the end of the session is requested, and the session closed, fewer responses complete than the
  // turn budget.
  lemma ConversationIsBounded(call: Option<CallRecord>, states: seq<State>, actions: seq<Action>, st: Settings)
    requires IsNewCall(call) && IsRun(call, states, actions, st)
    requires var c := Final(states).shared.core; Count(c.history, Turn) >= TurnBudget(c, st)
    ensures EndRequested in Final(states).shared.core.history
    ensures Final(states).shared.closing || Final(states).shared.over
  {
    hide IsRun, Count, TurnBudget;
    RunIsSound(call, states, actions, st);
  }

  // Known callers never enter VERIFY; others pass it, or report a new issue, before any later phase;
  // the category is absent or valid.
  lemma PhasesAreSafe(call: Option<CallRecord>, states: seq<State>, actions: seq<Action>, st: Settings)
    requires IsNewCall(call) && IsRun(call, states, actions, st)
    ensures var c := Final(states).shared.core;
      && IsKnown(c.call) == IsKnown(call)
      && (IsKnown(call) ==> Entered(Verify) !in c.history)
      && (!IsKnown(call) ==>
            forall i :: 0 <= i < |c.history| && c.history[i].Entered? && !BeforeTriage(c.history[i].phase) ==>
              Entered(Verify) in c.history[..i] || LoopedBack in c.history[..i])
      && (CategoryOf(c.call).Some? ==> CategoryOf(c.call).value in SERVICE_CATEGORIES)
  {
    hide IsRun;
    RunIsSound(call, states, actions, st);
    IdentityIsConstant(call, states, actions, st);
  }

  lemma {:induction false} IdentityIsConstant(call: Option<CallRecord>, states: seq<State>, actions: seq<Action>,
                                              st: Settings)
    requires IsRun(call, states, actions, st)
    ensures IsKnown(Final(states).shared.core.call) == IsKnown(call)
    decreases |actions|
  {
    hide Step, Apply, ToolList;
    if actions != [] {
      var n := |actions| - 1;
      IdentityIsConstant(call, states[..n + 1], actions[..n], st);
      var s, a := states[n], actions[n];
      StepIsEvent(s, a, st);
      if EventOf(s, a).Some? {
        StepKeepsIdentity(s.shared.core, EventOf(s, a).value, st);
      }
    }
  }

  // The stored category changes only while the stored phase is TRIAGE, by a phase_complete that names it.
  lemma CategoryChangesInTriage(s: State, a: Action, st: Settings)
    requires Step(s, a, st).Some?
    requires CategoryOf(Step(s, a, st).value.shared.core.call) != CategoryOf(s.shared.core.call)
    ensures && a.Proceed? && a.i < |s.handlers| && s.handlers[a.i].tool.PhaseComplete?
            && s.shared.core.call.Some? && s.shared.core.call.value.phase.Triage?
            && CategoryOf(Step(s, a, st).value.shared.core.call) == s.handlers[a.i].category
  {
    hide Step, Apply;
    StepIsEvent(s, a, st);
    if EventOf(s, a).Some? {
      StepKeepsIdentity(s.shared.core, EventOf(s, a).value, st);
    }
  }

  // A reconnect restores the session as it was configured: the phase, the record and the offer stay.
  lemma ReconnectRestores(call: Option<CallRecord>, states: seq<State>, actions: seq<Action>, st: Settings)
    requires IsNewCall(call) && IsRun(call, states, actions, st)
    requires Step(Final(states), Rejoin, st).Some?
    ensures var c := Final(states).shared.core;
      var d := Step(Final(states), Rejoin, st).value.shared.core;
      && d.phase == c.phase && d.call == c.call && d.offered == c.offered
      && d.turns == 0 && d.called == {}
  {
    hide IsRun, ToolList;
    RunIsSound(call, states, actions, st);
  }

  // A phase_complete waiting at the gate when its response completes. The conversation moves by the
  // handler's own advance alone exactly when the turn limit is not reached; otherwise the response has
  // already moved it, and it moves twice: a phase is never spoken in, or, from RESOLVE, the call ends without
  // a WRAP_UP turn.
  lemma OneResponseCanAdvanceTwice(s: State, i: nat, d: Delivery, st: Settings)
    requires s.loop.Done? && s.shared.connected && s.shared.inbox != [] && s.shared.inbox[0] == ResponseDone
    requires Possible(s.shared, d)
    requires i < |s.handlers| && s.handlers[i].tool.PhaseComplete? && s.handlers[i].pc.AwaitGate?
    ensures var heard := Step(s, Receive(d), st);
      && heard.Some? && Step(heard.value, Wake(Task(i)), st).Some?
      && (var woken := Step(heard.value, Wake(Task(i)), st).value;
          && Step(woken, Proceed(i), st).Some?
          && (var c, f := s.shared.core, Step(woken, Proceed(i), st).value.shared.core;
              var known := IsKnown(c.call);
              var below := c.turns + 1 < TurnLimit(c.phase, st);
              && (Moves(f.history) == Moves(c.history) + 1 <==> below)
              && (Moves(f.history) == Moves(c.history) + 2 <==> !below)
              && f.phase == (if below then Following(c.phase, known) else Following(Following(c.phase, known), known))
              && (Count(f.history, EndRequested) > Count(c.history, EndRequested) <==>
                    c.phase.WrapUp? || (!below && c.phase.Resolve?))))
  {
    hide Apply, DispatchAllowed, Moves, Following, TurnLimit, Count;
    var heard := Step(s, Receive(d), st).value;
    StepIsEvent(s, Receive(d), st);
    assert heard.handlers == s.handlers && heard.shared.ready;
    var woken := Step(heard, Wake(Task(i)), st).value;
    assert woken.handlers[i] == s.handlers[i].(pc := Woken) && woken.shared == heard.shared;
    StepIsEvent(woken, Proceed(i), st);
    TurnThenCompletion(s.shared.core, s.handlers[i].category, st);
  }

  // ---- The response gate over whole runs ----

  // Every action of the run meets the gate's assumptions.
  ghost predicate DisciplinedRun(states: seq<State>, actions: seq<Action>, st: Settings)
    requires |states| == |actions| + 1
  {
    forall i {:trigger actions[i]} :: 0 <= i < |actions| ==> Disciplined(states[i], actions[i], st)
  }

  lemma {:induction false} GateHoldsThroughout(call: Option<CallRecord>, states: seq<State>, actions: seq<Action>,
                                               st: Settings)
    requires IsNewCall(call) && IsRun(call, states, actions, st) && DisciplinedRun(states, actions, st)
    ensures GateHolds(Final(states))
    decreases |actions|
  {
    hide Step, Disciplined, Sound, ToolList;
    if actions == [] {
      assert forall m :: m in Init(call).shared.inbox ==> !m.FunctionCall?;
    } else {
      var n := |actions| - 1;
      GateHoldsThroughout(call, states[..n + 1], actions[..n], st);
      RunIsSound(call, states[..n + 1], actions[..n], st);
      assert LockExcludes(states[n]) by { SoundLocks(states[n], st); }
      assert Step(states[n], actions[n], st) == Some(states[n + 1]);
      StepKeepsGate(states[n], actions[n], st);
    }
  }

  lemma SoundLocks(s: State, st: Settings)
    requires Sound(s, st)
    ensures LockExcludes(s)
  {
  }

  // Under the assumptions, an open gate means no response is outstanding, and so every
  // response.create of every task is sent with none outstanding.
  lemma EveryCreateIsClean(call: Option<CallRecord>, states: seq<State>, actions: seq<Action>, st: Settings)
    requires IsNewCall(call) && IsRun(call, states, actions, st) && DisciplinedRun(states, actions, st)
    ensures var g := Final(states).shared;
      && (g.ready ==> g.server.Resting?)
      && (forall i :: 0 <= i < |g.creates| ==> !g.creates[i])
  {
    hide IsRun, DisciplinedRun;
    GateHoldsThroughout(call, states, actions, st);
  }

  // ---- Where the tool guards stop ----

  // In every run, a handler is stopped as a duplicate exactly for a one-call tool that has completed since
  // the latest phase entry under the name it is requested by.
  lemma DuplicateCheckExact(call: Option<CallRecord>, states: seq<State>, actions: seq<Action>, st: Settings, i: nat)
    requires IsNewCall(call) && IsRun(call, states, actions, st)
    requires Step(Final(states), Acquire(i), st).Some?
    ensures var s := Final(states);
      Step(s, Acquire(i), st).value.handlers[i].duplicate <==>
        && s.handlers[i].tool in {GetServiceStatus, GetAccountBalance, GetProductCatalog, GetAppointments,
                                  GetAccountDetails, GetServiceEligibility}
        && s.handlers[i].tool in SinceEntry(s.shared.core.history)
  {
    hide Healthy;
    RunIsSound(call, states, actions, st);
    SoundTracks(Final(states), st);
  }

  lemma SoundTracks(s: State, st: Settings)
    requires Sound(s, st)
    ensures VisitTracked(s.shared.core)
  {
  }

  // Every completed tool was requested by a handler under that name.
  ghost predicate Requested(s: State) {
    forall o :: o in s.shared.core.history && o.Completed? ==>
      exists i :: 0 <= i < |s.handlers| && s.handlers[i].tool == o.tool
  }

  lemma StepKeepsRequested(s: State, a: Action, st: Settings)
    requires Step(s, a, st).Some? && Requested(s)
    ensures Requested(Step(s, a, st).value)
  {
    hide Step, Apply;
    var s', e := Step(s, a, st).value, EventOf(s, a);
    StepIsEvent(s, a, st);
    StepMoves(s, a, st);
    assert forall i :: 0 <= i < |s.handlers| ==> s'.handlers[i].tool == s.handlers[i].tool;
    if e.Some? {
      HistoryGrows(s.shared.core, e.value, st);
      HistoryNews(s.shared.core, e.value, st);
      forall o | o in s'.shared.core.history && o.Completed?
        ensures exists i :: 0 <= i < |s'.handlers| && s'.handlers[i].tool == o.tool
      {
        if o in s.shared.core.history {
          var i :| 0 <= i < |s.handlers| && s.handlers[i].tool == o.tool;
          assert s'.handlers[i].tool == o.tool;
        } else {
          var k :| 0 <= k < |s'.shared.core.history| && s'.shared.core.history[k] == o;
          assert k >= |s.shared.core.history|;
          assert a.DispatchReturns? && s'.handlers[a.i].tool == o.tool;
        }
      }
    }
  }

  lemma {:induction false} RunIsRequested(call: Option<CallRecord>, states: seq<State>, actions: seq<Action>,
                                          st: Settings)
    requires IsRun(call, states, actions, st)
    ensures Requested(Final(states))
    decreases |actions|
  {
    hide Step, Requested, ToolList;
    if actions == [] {
      NothingRequested(call);
    } else {
      var n := |actions| - 1;
      RunIsRequested(call, states[..n + 1], actions[..n], st);
      assert Step(states[n], actions[n], st) == Some(states[n + 1]);
      StepKeepsRequested(states[n], actions[n], st);
    }
  }

  lemma NothingRequested(call: Option<CallRecord>)
    ensures Requested(Init(call))
  {
    assert Start(call).history == [Entered(Greeting)];
  }

  // While no handler is requested under a synonym of a one-call tool, the once-per-visit rule also holds
  // for the tools the names stand for. With a synonym it does not: SessionRuns.SynonymsEscape.
  lemma OwnNamesKeepTheRule(call: Option<CallRecord>, states: seq<State>, actions: seq<Action>, st: Settings)
    requires IsNewCall(call) && IsRun(call, states, actions, st)
    requires forall h :: h in Final(states).handlers && IsOneCall(Canonical(h.tool)) ==> Canonical(h.tool) == h.tool
    ensures CanonicalOncePerVisit(Final(states).shared.core.history)
  {
    hide Canonical, IsOneCall, OncePerVisit, CanonicalOncePerVisit;
    OneCallToolsCompleteOncePerVisit(call, states, actions, st);
    RunIsRequested(call, states, actions, st);
    var s := Final(states);
    forall o | o in s.shared.core.history && o.Completed? && IsOneCall(Canonical(o.tool))
      ensures Canonical(o.tool) == o.tool
    {
      var i :| 0 <= i < |s.handlers| && s.handlers[i].tool == o.tool;
      assert s.handlers[i] in s.handlers;
    }
    OwnNamesSuffice(s.shared.core.history);
  }

  // ---- escalate_to_agent ----

  // A handler is dispatching because it just passed the guard or retried, or because it already was.
  lemma DispatchingComesFrom(s: State, a: Action, st: Settings, i: nat)
    requires Step(s, a, st).Some? && i < |Step(s, a, st).value.handlers|
    requires Step(s, a, st).value.handlers[i].pc.Dispatching?
    ensures i < |s.handlers| && s.handlers[i].tool == Step(s, a, st).value.handlers[i].tool
    ensures if a == Proceed(i) || a == Retry(i)
            then Step(s, a, st).value.handlers[i].pc.allowed == DispatchAllowed(s.shared.core, s.handlers[i].tool)
            else s.handlers[i] == Step(s, a, st).value.handlers[i]
  {
    hide Apply, DispatchAllowed, Received, OthersStay;
    StepMoves(s, a, st);
    assert OthersStay(s, Step(s, a, st).value, a);
    if Actor(a) != Some(Task(i)) {
      NewHandlersQueue(s, Step(s, a, st).value, a, i);
    }
  }

  lemma NewHandlersQueue(s: State, s': State, a: Action, i: nat)
    requires OthersStay(s, s', a) && Actor(a) != Some(Task(i)) && i < |s'.handlers| && s'.handlers[i].pc.Dispatching?
    ensures i < |s.handlers| && s.handlers[i] == s'.handlers[i]
  {
  }

  // A handler's latest dispatch: its pass through the guard, or its retry.
  ghost predicate LatestDispatch(actions: seq<Action>, i: nat, k: nat) {
    && k < |actions| && (actions[k] == Proceed(i) || actions[k] == Retry(i))
    && forall j :: k < j < |actions| ==> actions[j] != Proceed(i) && actions[j] != Retry(i)
  }

  // Whether a dispatch was allowed was decided by the phase stored at the latest of them, and by nothing since.
  lemma {:induction false} AllowedByLatestDispatch(call: Option<CallRecord>, states: seq<State>, actions: seq<Action>,
                                                  st: Settings, i: nat) returns (k: nat)
    requires IsRun(call, states, actions, st)
    requires i < |Final(states).handlers| && Final(states).handlers[i].pc.Dispatching?
    ensures LatestDispatch(actions, i, k)
    ensures Final(states).handlers[i].pc.allowed ==
      DispatchAllowed(states[k].shared.core, Final(states).handlers[i].tool)
    decreases |actions|
  {
    hide Step, DispatchAllowed, ToolList;
    var n := |actions| - 1;
    assert Step(states[n], actions[n], st) == Some(states[n + 1]);
    DispatchingComesFrom(states[n], actions[n], st, i);
    if actions[n] == Proceed(i) || actions[n] == Retry(i) {
      k := n;
    } else {
      k := AllowedByLatestDispatch(call, states[..n + 1], actions[..n], st, i);
    }
  }

  lemma {:induction false} RecordStays(call: Option<CallRecord>, states: seq<State>, actions: seq<Action>,
                                       st: Settings, k: nat)
    requires IsRun(call, states, actions, st) && k < |states|
    ensures states[k].shared.core.call.Some? == call.Some?
    decreases k
  {
    hide Step, Apply, ToolList;
    if k > 0 {
      RecordStays(call, states, actions, st, k - 1);
      assert Step(states[k - 1], actions[k - 1], st) == Some(states[k]);
      StepIsEvent(states[k - 1], actions[k - 1], st);
      if EventOf(states[k - 1], actions[k - 1]).Some? {
        StepKeepsIdentity(states[k - 1].shared.core, EventOf(states[k - 1], actions[k - 1]).value, st);
      }
    }
  }

  // In every run, whatever happens during the dispatch: a successful escalate_to_agent asks for the close of
  // the session, and it transfers the caller unless the stored phase was TRIAGE when the tool was last
  // dispatched; an unregistered call is always transferred. There the guard's refusal counts as success and
  // the caller is dropped.
  lemma AgentEscalationTransfersUnlessTriage(call: Option<CallRecord>, states: seq<State>, actions: seq<Action>,
                                             st: Settings, i: nat) returns (k: nat)
    requires IsRun(call, states, actions, st)
    requires i < |Final(states).handlers| && Final(states).handlers[i].pc.Dispatching?
    requires Final(states).handlers[i].tool.EscalateToAgent?
    ensures LatestDispatch(actions, i, k)
    ensures states[k].shared.core.call.Some? == Final(states).shared.core.call.Some? == call.Some?
    ensures Step(Final(states), DispatchReturns(i, true), st).Some?
    ensures var c := Final(states).shared.core;
      var closed := Step(Final(states), DispatchReturns(i, true), st).value.shared;
      var referred := call.None? || !states[k].shared.core.call.value.phase.Triage?;
      && closed.closing
      && closed.core.history == c.history + [Completed(EscalateToAgent)] + [AgentClose(referred)]
      && closed.core.call.Some? == call.Some?
      && (call.Some? ==> closed.core.call.value.state == (if referred then Transferring else c.call.value.state))
  {
    hide IsRun, GuardAllows, ToolList;
    k := AllowedByLatestDispatch(call, states, actions, st, i);
    LastAndEarlier(call, states, actions, st, k);
    RecordStays(call, states, actions, st, k);
    RecordStays(call, states, actions, st, |actions|);
    if call.Some? {
      AgentGuard(states[k].shared.core.call.value.phase);
    }
  }

  lemma LastAndEarlier(call: Option<CallRecord>, states: seq<State>, actions: seq<Action>, st: Settings, k: nat)
    requires IsRun(call, states, actions, st) && k < |actions|
    ensures k < |actions| < |states| && states[|actions|] == Final(states)
  {
  }
}
