// What moves the conversation between two moments of a run, and how much one response can move it.
module SessionSegments {
  import opened Models
  import opened ToolCatalog
  import opened PhaseMachine
  import opened SessionProtocol
  import opened ProtocolSafety
  import opened ResponseGate
  import opened SessionTheorems

  // ---- Every move has a cause ----

  // The four ways the conversation enters a phase or is ended.
  datatype Cause = TurnLimitReached | PhaseCompletion | NewIssueRaised | Reentry

  // The loop hears that a response is complete.
  predicate HearsDone(s: State, a: Action) {
    a.Receive? && s.shared.inbox != [] && s.shared.inbox[0].ResponseDone?
  }

  function CauseOf(s: State, a: Action, st: Settings): Option<Cause> {
    var c := s.shared.core;
    if HearsDone(s, a) && c.turns + 1 >= TurnLimit(c.phase, st) then Some(TurnLimitReached)
    else if a.Proceed? && a.i < |s.handlers| && s.handlers[a.i].tool.PhaseComplete? then Some(PhaseCompletion)
    else if a.Proceed? && a.i < |s.handlers| && s.handlers[a.i].tool.ReportNewIssue? && !c.phase.Triage?
    then Some(NewIssueRaised)
    else if a.Rejoin? then Some(Reentry)
    else None
  }

  // The moves one conversation event makes.
  function EventMoves(c: Core, e: Event, st: Settings): nat {
    match e
    case ResponseCompleted => if c.turns + 1 >= TurnLimit(c.phase, st) then 1 else 0
    case PhaseCompleted(_) => 1
    case NewIssue => if c.phase.Triage? then 0 else 1
    case Reconnect => 1
    case _ => 0
  }

  lemma EntryMoves(c: Core, phase: ConvPhase)
    ensures Moves(Enter(c, phase).history) == Moves(c.history) + 1
  {
    assert Enter(c, phase).history[..|c.history|] == c.history;
  }

  lemma ToolMakesNoMove(c: Core, tool: Tool, allowed: bool, st: Settings)
    ensures Moves(ToolReturned(c, tool, allowed, st).core.history) == Moves(c.history)
  {
    hide Moves, OverLimit;
    NoteMoves(c, Completed(tool));
    NoteMoves(RecordTool(c, tool), AgentClose(allowed));
    NoteMoves(RecordTool(c, tool), Escalated);
  }

  lemma CheckMakesNoMove(c: Core, st: Settings)
    ensures Moves(CheckEscalation(c, st).core.history) == Moves(c.history)
  {
    hide Moves, OverLimit;
    NoteMoves(c, Escalated);
  }

  lemma TurnMoves(c: Core, st: Settings)
    ensures Moves(RecordTurn(c, st).core.history) ==
      Moves(c.history) + (if c.turns + 1 >= TurnLimit(c.phase, st) then 1 else 0)
  {
    hide Moves, Advance, TurnLimit;
    NoteMoves(c.(turns := c.turns + 1), Turn);
    AdvanceMovesOnce(Note(c.(turns := c.turns + 1), Turn));
  }

  lemma MovesOfEvent(c: Core, e: Event, st: Settings)
    ensures Moves(Apply(c, e, st).core.history) == Moves(c.history) + EventMoves(c, e, st)
  {
    hide Moves, Advance, ToolReturned, CheckEscalation, RecordTurn, TurnLimit, Enter;
    match e
    case ResponseCompleted => TurnMoves(c, st);
    case PhaseCompleted(category) =>
      if SetCategory(c, category) != c {
        NoteMoves(c, CategorySet(category.value));
      }
      AdvanceMovesOnce(SetCategory(c, category));
    case NewIssue =>
      NoteMoves(c, LoopedBack);
      EntryMoves(Note(c, LoopedBack), Triage);
    case Reconnect =>
      NoteMoves(c, Reconnected);
      EntryMoves(Note(c, Reconnected), c.phase);
    case ToolSucceeded(tool, allowed) => ToolMakesNoMove(c, tool, allowed, st);
    case ToolFailed(_) => CheckMakesNoMove(CountToolFailure(c), st);
    case CallerFrustrated => CheckMakesNoMove(CountFrustration(c), st);
    case AutoReferIssued => NoteMoves(c, AutoRefer);
    case ReferAccepted =>
    case HungUp =>
  }

  // An action moves the conversation once if it has one of the causes, and otherwise not at all.
  lemma StepMovesByCause(s: State, a: Action, st: Settings)
    requires Step(s, a, st).Some?
    ensures Moves(Step(s, a, st).value.shared.core.history) ==
      Moves(s.shared.core.history) + (if CauseOf(s, a, st).Some? then 1 else 0)
  {
    hide Apply, Moves, TurnLimit;
    StepIsEvent(s, a, st);
    if EventOf(s, a).Some? {
      MovesOfEvent(s.shared.core, EventOf(s, a).value, st);
    }
    CausesAreEvents(s, a, st);
  }

  lemma CausesAreEvents(s: State, a: Action, st: Settings)
    requires Step(s, a, st).Some?
    ensures CauseOf(s, a, st).Some? <==>
      EventOf(s, a).Some? && EventMoves(s.shared.core, EventOf(s, a).value, st) == 1
  {
    hide Apply, TurnLimit, Received, Resumed, Released, Proceeded, Dispatched, Referred, DispatchAllowed, ServerStep;
  }

  // How often a cause occurs from action m up to action n.
  function Occurs(states: seq<State>, actions: seq<Action>, m: nat, n: nat, cause: Cause, st: Settings): nat
    requires m <= n <= |actions| < |states|
    decreases n
  {
    if m == n then 0
    else
      Occurs(states, actions, m, n - 1, cause, st)
      + (if CauseOf(states[n - 1], actions[n - 1], st) == Some(cause) then 1 else 0)
  }

  // Over any stretch of any session, the moves are the occurrences of the four causes.
  lemma {:induction false} MovesAreCaused(states: seq<State>, actions: seq<Action>, m: nat, n: nat, st: Settings)
    requires IsPath(states, actions, st) && m <= n <= |actions|
    ensures Moves(states[n].shared.core.history) ==
      Moves(states[m].shared.core.history)
      + Occurs(states, actions, m, n, TurnLimitReached, st) + Occurs(states, actions, m, n, PhaseCompletion, st)
      + Occurs(states, actions, m, n, NewIssueRaised, st) + Occurs(states, actions, m, n, Reentry, st)
    decreases n
  {
    hide Moves, CauseOf, Step;
    if m == n {
    } else {
      MovesAreCaused(states, actions, m, n - 1, st);
      assert Step(states[n - 1], actions[n - 1], st) == Some(states[n]);
      StepMovesByCause(states[n - 1], actions[n - 1], st);
      var cause := CauseOf(states[n - 1], actions[n - 1], st);
      assert cause.None? || cause.value.TurnLimitReached? || cause.value.PhaseCompletion?
             || cause.value.NewIssueRaised? || cause.value.Reentry?;
    }
  }

  // ---- One response ----

  // From the moment the loop hears a response end until just before it hears the next.
  ghost predicate OneResponse(states: seq<State>, actions: seq<Action>, m: nat, n: nat)
    requires |actions| < |states|
  {
    && m < n <= |actions| && HearsDone(states[m], actions[m])
    && forall x {:trigger actions[x]} :: m < x < n ==> !HearsDone(states[x], actions[x])
  }

  lemma {:induction false} OneTurnOnly(states: seq<State>, actions: seq<Action>, m: nat, n: nat, st: Settings)
    requires |actions| < |states| && OneResponse(states, actions, m, n)
    ensures Occurs(states, actions, m, n, TurnLimitReached, st) ==
      (var c := states[m].shared.core; if c.turns + 1 >= TurnLimit(c.phase, st) then 1 else 0)
    decreases n
  {
    hide TurnLimit;
    if n == m + 1 {
      assert Occurs(states, actions, m, m, TurnLimitReached, st) == 0;
    } else {
      OneTurnOnly(states, actions, m, n - 1, st);
      assert !HearsDone(states[n - 1], actions[n - 1]);
    }
  }

  // In every run, one response moves the conversation once if it reaches the turn limit, and once more for
  // each phase_complete and each report_new_issue outside TRIAGE that gets past the gate, and each reconnect.
  lemma MovesOfOneResponse(states: seq<State>, actions: seq<Action>, m: nat, n: nat, st: Settings)
    requires IsPath(states, actions, st) && OneResponse(states, actions, m, n)
    ensures var c := states[m].shared.core;
      Moves(states[n].shared.core.history) ==
      Moves(c.history)
      + (if c.turns + 1 >= TurnLimit(c.phase, st) then 1 else 0)
      + Occurs(states, actions, m, n, PhaseCompletion, st) + Occurs(states, actions, m, n, NewIssueRaised, st)
      + Occurs(states, actions, m, n, Reentry, st)
  {
    hide Moves, TurnLimit, CauseOf;
    MovesAreCaused(states, actions, m, n, st);
    OneTurnOnly(states, actions, m, n, st);
  }

  // ---- How many handlers one response lets past the gate ----

  // A handler that always ends by a response.create, while there is a session: any but wait_for_user, which
  // sends none, and escalate_to_agent, which may close the session instead.
  predicate Replying(h: Handler) {
    !h.tool.WaitForUser? && !h.tool.EscalateToAgent?
  }

  // Past the gate, with its response.create still to send.
  predicate OwesCreate(pc: Pc) {
    pc.SendUpdate? || pc.SendOutput? || pc.Dispatching? || pc == Closing(true) || pc.EscSay?
  }

  // A failed response.create opens the gate again.
  predicate Reopens(s: State, a: Action) {
    a.Resume? && Exists(s, a.who) && FailedCreate(PcOf(s, a.who))
  }

  // Handler i has gone past the gate: it still owes its response.create, or has sent it and shut the gate.
  predicate Passed(s: State, i: nat) {
    || s.shared.over
    || !s.shared.ready
    || (i < |s.handlers| && s.lock == Some(i) && Replying(s.handlers[i]) && OwesCreate(s.handlers[i].pc))
  }

  lemma ProceedingPasses(s: State, i: nat, st: Settings)
    requires Step(s, Proceed(i), st).Some? && LockExcludes(s) && Replying(s.handlers[i])
    ensures Passed(Step(s, Proceed(i), st).value, i)
  {
    hide Apply, Proceeded, DispatchAllowed;
    ProceededGoesOn(s.shared, s.handlers[i], st);
  }

  lemma ReceivedStaysShut(g: Shared, m: Inbound, d: Delivery, st: Settings)
    requires !m.ResponseDone?
    ensures var t := Received(g, m, d, st).shared; t.over == g.over && (t.ready ==> g.ready)
  {
    hide Apply;
  }

  lemma ProceededStaysShut(g: Shared, h: Handler, st: Settings)
    ensures var t := Proceeded(g, h, st).shared; t.over == g.over && t.ready == g.ready
  {
    hide Apply, DispatchAllowed;
  }

  lemma ResumedStaysShut(g: Shared, pc: Pc, isLoop: bool, replies: bool, d: Delivery, st: Settings)
    requires Resumed(g, pc, isLoop, replies, d, st).Some? && !FailedCreate(pc)
    ensures var t := Resumed(g, pc, isLoop, replies, d, st).value.shared; t.over == g.over && (t.ready ==> g.ready)
  {
    hide Apply;
  }

  // The gate stays shut, or the session over, under every step but the three that open it.
  lemma ShutStays(s: State, a: Action, st: Settings)
    requires Step(s, a, st).Some? && !a.Timeout? && !HearsDone(s, a) && !Reopens(s, a)
    ensures s.shared.over ==> Step(s, a, st).value.shared.over
    ensures !s.shared.ready ==> !Step(s, a, st).value.shared.ready
  {
    hide Apply, DispatchAllowed, Received, Proceeded, Resumed;
    var g := s.shared;
    match a
    case Receive(d) => ReceivedStaysShut(g.(inbox := g.inbox[1..]), g.inbox[0], d, st);
    case Proceed(i) => ProceededStaysShut(g, s.handlers[i], st);
    case Resume(who, d) => ResumedStaysShut(g, PcOf(s, who), who.Loop?, Replies(s, who), d, st);
    case _ =>
  }

  lemma OwingGoesOn(s: State, a: Action, st: Settings, i: nat)
    requires Step(s, a, st).Some? && !a.Timeout?
    requires i < |s.handlers| && s.lock == Some(i) && Replying(s.handlers[i]) && OwesCreate(s.handlers[i].pc)
    requires Actor(a) == Some(Task(i))
    ensures Passed(Step(s, a, st).value, i)
  {
    hide Apply, DispatchAllowed, Received, Proceeded;
  }

  lemma PassedStays(s: State, a: Action, st: Settings, i: nat)
    requires Step(s, a, st).Some? && LockExcludes(s) && Passed(s, i)
    requires !a.Timeout? && !HearsDone(s, a) && !Reopens(s, a)
    ensures Passed(Step(s, a, st).value, i)
  {
    hide Step;
    ShutStays(s, a, st);
    if !s.shared.over && s.shared.ready {
      if Actor(a) == Some(Task(i)) {
        OwingGoesOn(s, a, st, i);
      } else {
        StepMoves(s, a, st);
      }
    }
  }

  lemma PathPrefix(call: Option<CallRecord>, states: seq<State>, actions: seq<Action>, n: nat, st: Settings)
    requires IsNewCall(call) && IsRun(call, states, actions, st) && n <= |actions|
    ensures LockExcludes(states[n])
    ensures DisciplinedRun(states, actions, st) ==> GateHolds(states[n])
  {
    hide Step, Sound, LockExcludes, GateHolds, Disciplined;
    RunIsSound(call, states[..n + 1], actions[..n], st);
    SoundLocks(states[n], st);
    if DisciplinedRun(states, actions, st) {
      GateHoldsThroughout(call, states[..n + 1], actions[..n], st);
    }
  }

  // Nothing between k and l ends a response or opens the gate after a failure.
  ghost predicate NothingOpens(states: seq<State>, actions: seq<Action>, k: nat, l: nat)
    requires |actions| < |states|
  {
    forall x {:trigger actions[x]} :: k < x < l && x < |actions| ==>
      !HearsDone(states[x], actions[x]) && !Reopens(states[x], actions[x])
  }

  lemma {:induction false} PassedUntil(call: Option<CallRecord>, states: seq<State>, actions: seq<Action>, st: Settings,
                                      k: nat, x: nat, i: nat)
    requires IsNewCall(call) && IsRun(call, states, actions, st) && DisciplinedRun(states, actions, st)
    requires k < x <= |actions| && actions[k] == Proceed(i)
    requires i < |states[k].handlers| && Replying(states[k].handlers[i])
    requires NothingOpens(states, actions, k, x)
    ensures Passed(states[x], i)
    decreases x
  {
    hide Step, LockExcludes, Passed, GateHolds, Reopens, HearsDone;
    PathPrefix(call, states, actions, x - 1, st);
    assert Step(states[x - 1], actions[x - 1], st) == Some(states[x]);
    if x == k + 1 {
      ProceedingPasses(states[k], i, st);
    } else {
      assert Disciplined(states[x - 1], actions[x - 1], st);
      assert !HearsDone(states[x - 1], actions[x - 1]) && !Reopens(states[x - 1], actions[x - 1]);
      PassedUntil(call, states, actions, st, k, x - 1, i);
      PassedStays(states[x - 1], actions[x - 1], st, i);
    }
  }

  // In a disciplined run, after a replying handler no handler gets past the gate while the session lasts,
  // until a response ends or a response.create fails.
  lemma OneHandlerPerResponse(call: Option<CallRecord>, states: seq<State>, actions: seq<Action>, st: Settings,
                              k: nat, l: nat)
    requires IsNewCall(call) && IsRun(call, states, actions, st) && DisciplinedRun(states, actions, st)
    requires k < l < |actions| && actions[k].Proceed? && actions[l].Proceed?
    requires actions[k].i < |states[k].handlers| && Replying(states[k].handlers[actions[k].i])
    requires !states[l].shared.over
    ensures exists x :: k < x < l && (HearsDone(states[x], actions[x]) || Reopens(states[x], actions[x]))
  {
    hide Step, GateHolds, LockExcludes;
    if NothingOpens(states, actions, k, l) {
      PassedUntil(call, states, actions, st, k, l, actions[k].i);
      PathPrefix(call, states, actions, l, st);
      assert Step(states[l], actions[l], st) == Some(states[l + 1]);
      GateIsShut(states[l], actions[k].i, actions[l].i, st);
      assert false;
    } else {
      var x :| k < x < l && (HearsDone(states[x], actions[x]) || Reopens(states[x], actions[x]));
    }
  }

  lemma GateIsShut(s: State, i: nat, j: nat, st: Settings)
    requires LockExcludes(s) && GateHolds(s) && Passed(s, i) && !s.shared.over
    ensures Step(s, Proceed(j), st).None?
  {
    hide GateSound, AtRest, Apply, Proceeded;
  }

  // ---- Exactly two moves ----

  // The completions and new issues of a stretch.
  function Handled(states: seq<State>, actions: seq<Action>, m: nat, n: nat, st: Settings): nat
    requires m <= n <= |actions| < |states|
  {
    Occurs(states, actions, m, n, PhaseCompletion, st) + Occurs(states, actions, m, n, NewIssueRaised, st)
  }

  predicate Handles(s: State, a: Action, st: Settings) {
    CauseOf(s, a, st) == Some(PhaseCompletion) || CauseOf(s, a, st) == Some(NewIssueRaised)
  }

  lemma {:induction false} HandledAt(states: seq<State>, actions: seq<Action>, m: nat, n: nat, st: Settings)
        returns (x: nat)
    requires m <= n <= |actions| < |states| && Handled(states, actions, m, n, st) >= 1
    ensures m <= x < n && Handles(states[x], actions[x], st)
    ensures Handled(states, actions, m, x, st) == Handled(states, actions, m, n, st) - 1
    decreases n
  {
    hide CauseOf;
    if Handles(states[n - 1], actions[n - 1], st) {
      x := n - 1;
    } else {
      x := HandledAt(states, actions, m, n - 1, st);
    }
  }

  lemma HandlingIsProceeding(s: State, a: Action, st: Settings)
    requires Handles(s, a, st)
    ensures a.Proceed? && a.i < |s.handlers| && Replying(s.handlers[a.i])
  {
    hide TurnLimit;
  }

  // From m on, before n, the session is open and no failed response.create opens the gate.
  ghost predicate Undisturbed(states: seq<State>, actions: seq<Action>, m: nat, n: nat)
    requires m <= n <= |actions| < |states|
  {
    && (forall x :: m <= x < n ==> !Reopens(states[x], actions[x]))
    && (forall x :: m <= x < n ==> !states[x].shared.over)
  }

  // In a disciplined run a response that ends in an open session, with no response.create failing until
  // the next one ends, lets at most one completion or new issue through.
  lemma AtMostOneHandled(call: Option<CallRecord>, states: seq<State>, actions: seq<Action>, m: nat, n: nat,
                         st: Settings)
    requires IsNewCall(call) && IsRun(call, states, actions, st) && DisciplinedRun(states, actions, st)
    requires OneResponse(states, actions, m, n)
    requires Undisturbed(states, actions, m, n)
    ensures Handled(states, actions, m, n, st) <= 1
  {
    hide CauseOf, Step, Handled, Disciplined;
    if Handled(states, actions, m, n, st) >= 2 {
      var l := HandledAt(states, actions, m, n, st);
      var k := HandledAt(states, actions, m, l, st);
      HandlingIsProceeding(states[k], actions[k], st);
      HandlingIsProceeding(states[l], actions[l], st);
      assert actions[l].Proceed? && !states[l].shared.over;
      OneHandlerPerResponse(call, states, actions, st, k, l);
      assert false;
    }
  }

  // So, reconnects aside, such a response moves the conversation at most twice, and twice if and only if it
  // reaches the turn limit and a phase_complete, or a report_new_issue outside TRIAGE, gets past the gate.
  lemma TwiceExactly(call: Option<CallRecord>, states: seq<State>, actions: seq<Action>, m: nat, n: nat, st: Settings)
    requires IsNewCall(call) && IsRun(call, states, actions, st) && DisciplinedRun(states, actions, st)
    requires OneResponse(states, actions, m, n)
    requires Undisturbed(states, actions, m, n)
    ensures var c := states[m].shared.core;
      var moved := Moves(states[n].shared.core.history) - Moves(c.history) - Occurs(states, actions, m, n, Reentry, st);
      && 0 <= moved <= 2
      && (moved == 2 <==>
            && c.turns + 1 >= TurnLimit(c.phase, st)
            && exists x :: m <= x < n && Handles(states[x], actions[x], st))
  {
    hide Moves, CauseOf, Step, DisciplinedRun, OneResponse, Undisturbed, Handles, TurnLimit;
    ResponseBounds(states, actions, m, n);
    MovesOfOneResponse(states, actions, m, n, st);
    AtMostOneHandled(call, states, actions, m, n, st);
    if Handled(states, actions, m, n, st) >= 1 {
      var x := HandledAt(states, actions, m, n, st);
    }
    if x :| m <= x < n && Handles(states[x], actions[x], st) {
      HandledCounts(states, actions, m, n, x, st);
    }
  }

  lemma ResponseBounds(states: seq<State>, actions: seq<Action>, m: nat, n: nat)
    requires |actions| < |states| && OneResponse(states, actions, m, n)
    ensures m < n <= |actions|
  {
  }

  lemma {:induction false} HandledCounts(states: seq<State>, actions: seq<Action>, m: nat, n: nat, x: nat, st: Settings)
    requires m <= x < n <= |actions| < |states| && Handles(states[x], actions[x], st)
    ensures Handled(states, actions, m, n, st) >= 1
    decreases n
  {
    hide CauseOf;
    if x < n - 1 {
      HandledCounts(states, actions, m, n - 1, x, st);
    }
  }

  // ---- Escalating out of the event loop ----

  // Past the gate, with a response.create still to be refused or already refused: what opens the gate again.
  predicate CanReopen(g: Shared, h: Handler) {
    || FailedCreate(h.pc)
    || (!g.over && (h.pc.EscSay? || (!h.tool.WaitForUser? && (h.pc.Woken? || OwesCreate(h.pc)))))
  }

  // The loop waits for the announcement to finish, the gate is shut, and no handler can open it.
  ghost predicate LoopWaitsOnItself(s: State) {
    s.loop.EscAwait? && !s.shared.ready && forall h :: h in s.handlers ==> !CanReopen(s.shared, h)
  }

  // wait_for_user is answered without a dispatch.
  ghost predicate WaitsUndispatched(s: State) {
    forall h :: h in s.handlers && h.tool.WaitForUser? ==> !h.pc.Dispatching?
  }

  lemma StepKeepsUndispatched(s: State, a: Action, st: Settings)
    requires Step(s, a, st).Some? && WaitsUndispatched(s)
    ensures WaitsUndispatched(Step(s, a, st).value)
  {
    hide Step, Proceeded;
    var s' := Step(s, a, st).value;
    forall i | 0 <= i < |s'.handlers| && s'.handlers[i].tool.WaitForUser?
      ensures !s'.handlers[i].pc.Dispatching?
    {
      if s'.handlers[i].pc.Dispatching? {
        DispatchingComesFrom(s, a, st, i);
        if a == Proceed(i) || a == Retry(i) {
          WaitIsNotDispatched(s, a, i, st);
        }
      }
    }
  }

  lemma WaitIsNotDispatched(s: State, a: Action, i: nat, st: Settings)
    requires Step(s, a, st).Some? && i < |s.handlers| && s.handlers[i].tool.WaitForUser? && WaitsUndispatched(s)
    requires a == Proceed(i) || a == Retry(i)
    ensures i < |Step(s, a, st).value.handlers| && !Step(s, a, st).value.handlers[i].pc.Dispatching?
  {
    assert s.handlers[i] in s.handlers;
  }

  lemma {:induction false} RunIsUndispatched(call: Option<CallRecord>, states: seq<State>, actions: seq<Action>,
                                             st: Settings)
    requires IsRun(call, states, actions, st)
    ensures WaitsUndispatched(Final(states))
    decreases |actions|
  {
    hide Step, WaitsUndispatched, ToolList;
    if actions == [] {
      assert WaitsUndispatched(Init(call)) by { NothingDispatched(call); }
    } else {
      var n := |actions| - 1;
      RunIsUndispatched(call, states[..n + 1], actions[..n], st);
      assert Step(states[n], actions[n], st) == Some(states[n + 1]);
      StepKeepsUndispatched(states[n], actions[n], st);
    }
  }

  lemma NothingDispatched(call: Option<CallRecord>)
    ensures WaitsUndispatched(Init(call))
  {
  }

  // Then every step but a timeout leaves it waiting: response.done is handled by the very task that waits.
  lemma WaitStays(s: State, a: Action, st: Settings)
    requires LoopWaitsOnItself(s) && WaitsUndispatched(s) && Step(s, a, st).Some? && !a.Timeout?
    ensures LoopWaitsOnItself(Step(s, a, st).value)
  {
    hide Step, CanReopen;
    var s' := Step(s, a, st).value;
    WaitKeepsLoop(s, a, st);
    forall h | h in s'.handlers
      ensures !CanReopen(s'.shared, h)
    {
      var i :| 0 <= i < |s'.handlers| && s'.handlers[i] == h;
      HandlerStaysHarmless(s, a, st, i);
    }
  }

  lemma WaitKeepsLoop(s: State, a: Action, st: Settings)
    requires LoopWaitsOnItself(s) && Step(s, a, st).Some? && !a.Timeout?
    ensures Step(s, a, st).value.loop.EscAwait? && !Step(s, a, st).value.shared.ready
    ensures Step(s, a, st).value.shared.over == s.shared.over
  {
    hide Apply, DispatchAllowed, Received, Proceeded;
    if a.Proceed? {
      ProceededStaysShut(s.shared, s.handlers[a.i], st);
    }
    if a.Resume? && a.who.Task? {
      assert s.handlers[a.who.i] in s.handlers;
    }
  }

  lemma HandlerStaysHarmless(s: State, a: Action, st: Settings, i: nat)
    requires LoopWaitsOnItself(s) && WaitsUndispatched(s) && Step(s, a, st).Some? && !a.Timeout?
    requires i < |Step(s, a, st).value.handlers|
    ensures !CanReopen(Step(s, a, st).value.shared, Step(s, a, st).value.handlers[i])
  {
    hide Step;
    WaitKeepsLoop(s, a, st);
    StepMoves(s, a, st);
    if i < |s.handlers| {
      assert s.handlers[i] in s.handlers;
      if Actor(a) == Some(Task(i)) {
        ActorStaysHarmless(s, a, st, i);
      }
    }
  }

  lemma ActorStaysHarmless(s: State, a: Action, st: Settings, i: nat)
    requires Step(s, a, st).Some? && !a.Timeout? && Actor(a) == Some(Task(i)) && i < |s.handlers|
    requires !s.shared.ready && !CanReopen(s.shared, s.handlers[i])
    requires s.handlers[i].tool.WaitForUser? ==> !s.handlers[i].pc.Dispatching?
    requires Step(s, a, st).value.shared.over == s.shared.over
    ensures i < |Step(s, a, st).value.handlers|
    ensures !CanReopen(Step(s, a, st).value.shared, Step(s, a, st).value.handlers[i])
  {
    hide Apply, DispatchAllowed, Received;
  }

  lemma {:induction false} PathStaysWaiting(states: seq<State>, actions: seq<Action>, st: Settings)
    requires IsPath(states, actions, st) && LoopWaitsOnItself(states[0]) && WaitsUndispatched(states[0])
    requires forall a :: a in actions ==> !a.Timeout?
    ensures LoopWaitsOnItself(Final(states)) && WaitsUndispatched(Final(states))
    decreases |actions|
  {
    hide Step, LoopWaitsOnItself, WaitsUndispatched;
    if actions != [] {
      var n := |actions| - 1;
      PathStaysWaiting(states[..n + 1], actions[..n], st);
      assert Step(states[n], actions[n], st) == Some(states[n + 1]);
      StepKeepsUndispatched(states[n], actions[n], st);
      WaitStays(states[n], actions[n], st);
    }
  }

  // How far a handler is from having its response.create refused and the gate opened.
  function Distance(pc: Pc): nat {
    match pc
    case Woken => 5
    case Dispatching(_, _) => 4
    case SendUpdate => 3
    case Closing(_) => 3
    case SendOutput => 2
    case EscSay => 2
    case _ => 1
  }

  // One step of handler i came nearer to it.
  predicate Nearer(s: State, s': State, i: nat)
    requires i < |s.handlers|
  {
    && s'.loop.EscAwait? && i < |s'.handlers| && s'.handlers[i].tool == s.handlers[i].tool
    && (|| s'.shared.ready
        || (&& CanReopen(s'.shared, s'.handlers[i]) && Distance(s'.handlers[i].pc) < Distance(s.handlers[i].pc)
            && (s'.handlers[i].tool.WaitForUser? ==> !s'.handlers[i].pc.Dispatching?)))
  }

  predicate Willing(s: State, i: nat) {
    && s.loop.EscAwait? && i < |s.handlers| && CanReopen(s.shared, s.handlers[i])
    && (s.handlers[i].tool.WaitForUser? ==> !s.handlers[i].pc.Dispatching?)
  }

  lemma ProceedTowards(s: State, i: nat, st: Settings)
    requires Willing(s, i) && s.handlers[i].pc.Woken?
    ensures Step(s, Proceed(i), st).Some? && Nearer(s, Step(s, Proceed(i), st).value, i)
  {
    hide Proceeded;
    ProceededGoesOn(s.shared, s.handlers[i], st);
    ProceededStaysShut(s.shared, s.handlers[i], st);
  }

  lemma DispatchTowards(s: State, i: nat, st: Settings)
    requires Willing(s, i) && s.handlers[i].pc.Dispatching?
    ensures Step(s, DispatchReturns(i, false), st).Some?
    ensures Nearer(s, Step(s, DispatchReturns(i, false), st).value, i)
  {
    hide Apply;
  }

  lemma ResumeTowards(s: State, i: nat, st: Settings)
    requires Willing(s, i) && !s.handlers[i].pc.Woken? && !s.handlers[i].pc.Dispatching?
    ensures var a := Resume(Task(i), if s.shared.over then NoSocket else Refused);
      Step(s, a, st).Some? && Nearer(s, Step(s, a, st).value, i)
  {
    hide Apply, Proceeded, Dispatched, Received, ReceiveStep, ServerStep, AcquireStep, Referred, Released, Overruled,
         DispatchAllowed;
  }

  lemma StepTowards(s: State, i: nat, st: Settings) returns (a: Action)
    requires Willing(s, i)
    ensures !a.Timeout? && Step(s, a, st).Some? && Nearer(s, Step(s, a, st).value, i)
  {
    hide Step, Nearer, CanReopen;
    match s.handlers[i].pc
    case Woken =>
      a := Proceed(i);
      ProceedTowards(s, i, st);
    case Dispatching(_, _) =>
      a := DispatchReturns(i, false);
      DispatchTowards(s, i, st);
    case _ =>
      a := Resume(Task(i), if s.shared.over then NoSocket else Refused);
      ResumeTowards(s, i, st);
  }

  lemma {:induction false} Towards(s: State, i: nat, st: Settings) returns (states: seq<State>, actions: seq<Action>)
    requires Willing(s, i)
    ensures IsPath(states, actions, st) && states[0] == s && (forall a :: a in actions ==> !a.Timeout?)
    ensures Final(states).loop.EscAwait? && Final(states).shared.ready
    decreases Distance(s.handlers[i].pc)
  {
    hide Step, CanReopen, Distance;
    var a := StepTowards(s, i, st);
    var s' := Step(s, a, st).value;
    if s'.shared.ready {
      states, actions := [s, s'], [a];
    } else {
      states, actions := Towards(s', i, st);
      states, actions := PathCons(s, a, states, actions, st);
    }
  }

  lemma PathCons(s: State, a: Action, states: seq<State>, actions: seq<Action>, st: Settings)
      returns (states': seq<State>, actions': seq<Action>)
    requires IsPath(states, actions, st) && Step(s, a, st) == Some(states[0])
    ensures IsPath(states', actions', st) && states' == [s] + states && actions' == [a] + actions
    ensures states'[0] == s && Final(states') == Final(states)
  {
    hide Step;
    states', actions' := [s] + states, [a] + actions;
    forall i | 0 <= i < |actions'|
      ensures Step(states'[i], actions'[i], st) == Some(states'[i + 1])
    {
      if i > 0 {
        assert actions'[i] == actions[i - 1] && states'[i] == states[i - 1] && states'[i + 1] == states[i];
      }
    }
  }

  lemma PathSnoc(states: seq<State>, actions: seq<Action>, a: Action, st: Settings)
      returns (states': seq<State>, actions': seq<Action>)
    requires IsPath(states, actions, st) && Step(Final(states), a, st).Some?
    ensures IsPath(states', actions', st) && actions' == actions + [a]
    ensures states' == states + [Step(Final(states), a, st).value]
  {
    hide Step;
    states', actions' := states + [Step(Final(states), a, st).value], actions + [a];
  }

  // The loop can be moved on without a timeout: some continuation takes it out of its wait.
  ghost predicate MovesOn(s: State, st: Settings) {
    exists states: seq<State>, actions: seq<Action> ::
      && IsPath(states, actions, st) && states[0] == s && !Final(states).loop.EscAwait?
      && forall a :: a in actions ==> !a.Timeout?
  }

  lemma ReopeningMovesOn(s: State, i: nat, st: Settings)
    requires s.loop.EscAwait? && WaitsUndispatched(s)
    requires i < |s.handlers| && CanReopen(s.shared, s.handlers[i])
    ensures MovesOn(s, st)
  {
    hide CanReopen;
    assert s.handlers[i] in s.handlers;
    var states, actions := Towards(s, i, st);
    WakeMovesOn(Final(states), st);
    states, actions := PathSnoc(states, actions, Wake(Loop), st);
  }

  lemma WakeMovesOn(s: State, st: Settings)
    requires s.loop.EscAwait? && s.shared.ready
    ensures Step(s, Wake(Loop), st).Some? && !Step(s, Wake(Loop), st).value.loop.EscAwait?
  {
    hide Apply;
  }

  // In every run, when the event loop is waiting in an escalation of its own with the gate shut: it can be
  // moved on without a timeout if and only if some handler past the gate can still have, or has had, its
  // response.create refused.
  lemma OnlyATimeoutEndsTheWait(call: Option<CallRecord>, states: seq<State>, actions: seq<Action>, st: Settings)
    requires IsRun(call, states, actions, st)
    requires Final(states).loop.EscAwait? && !Final(states).shared.ready
    ensures MovesOn(Final(states), st) <==>
      exists h :: h in Final(states).handlers && CanReopen(Final(states).shared, h)
  {
    hide Step, CanReopen;
    RunIsUndispatched(call, states, actions, st);
    var s := Final(states);
    if h :| h in s.handlers && CanReopen(s.shared, h) {
      var i :| 0 <= i < |s.handlers| && s.handlers[i] == h;
      ReopeningMovesOn(s, i, st);
    } else {
      forall ss: seq<State>, aa: seq<Action> | IsPath(ss, aa, st) && ss[0] == s && forall a :: a in aa ==> !a.Timeout?
        ensures Final(ss).loop.EscAwait?
      {
        PathStaysWaiting(ss, aa, st);
      }
    }
  }
}
