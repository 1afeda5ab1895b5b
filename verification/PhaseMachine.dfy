// The conversation as a value: FSM fields, the shared call record and the tool list last
// handed to the session. Each event is one stretch of code between two suspension points,
// so the events of every interleaving form a plain sequence.
module PhaseMachine {
  import opened Models
  import opened ToolCatalog

  datatype Settings = Settings(maxTurnsPerPhase: int, frustrationLimit: int, toolFailureLimit: int)

  datatype CallRecord = CallRecord(
    accountId: string, phase: ConvPhase, category: Option<string>,
    state: CallState, hangupCause: Option<string>,
    escalated: bool, frustration: nat, toolFailures: nat)

  // What happened, in order.
  datatype Observation =
    | Entered(phase: ConvPhase)
    | Turn
    | LoopedBack
    | Reconnected
    | EndRequested
    | CategorySet(category: string)
    | Completed(tool: Tool)
    | Escalated
    | AutoRefer
    | AgentClose(referred: bool)

  datatype Core = Core(
    phase: ConvPhase, turns: nat, called: set<Tool>,
    call: Option<CallRecord>, offered: seq<Tool>, history: seq<Observation>)

  // What the code following an event still has to do.
  datatype Signal = Quiet | PhaseEntered | SessionEnded | EscalationStarted

  datatype Outcome = Outcome(core: Core, signal: Signal)

  datatype Event =
    | ResponseCompleted
    | PhaseCompleted(category: Option<string>)
    | NewIssue
    | Reconnect
    | ToolSucceeded(tool: Tool, allowed: bool)
    | ToolFailed(tool: Tool)
    | CallerFrustrated
    | AutoReferIssued
    | ReferAccepted
    | HungUp

  // ---- Operations ----

  function CategoryOf(call: Option<CallRecord>): Option<string> {
    if call.Some? then call.value.category else None
  }

  predicate IsKnown(call: Option<CallRecord>) {
    call.Some? && call.value.accountId != ""
  }

  function Note(c: Core, o: Observation): Core {
    c.(history := c.history + [o])
  }

  function Enter(c: Core, phase: ConvPhase): Core {
    var call := if c.call.Some? then Some(c.call.value.(phase := phase)) else None;
    Core(phase, 0, {}, call, ToolList(phase, CategoryOf(call)), c.history + [Entered(phase)])
  }

  function EndSession(c: Core): Core {
    var call := if c.call.Some? then Some(c.call.value.(state := Ended, hangupCause := Some("normal"))) else None;
    Note(c.(call := call), EndRequested)
  }

  // The phase advance() moves to from a phase other than WRAP_UP.
  function NextPhase(c: Core): ConvPhase
    requires !c.phase.WrapUp?
  {
    var next := PHASE_ORDER[OrderIndex(c.phase) + 1];
    if next.Verify? && IsKnown(c.call) then PHASE_ORDER[OrderIndex(c.phase) + 2] else next
  }

  function Advance(c: Core): Outcome {
    if c.phase.WrapUp? then Outcome(EndSession(c), SessionEnded)
    else Outcome(Enter(c, NextPhase(c)), PhaseEntered)
  }

  function Transition(c: Core, target: ConvPhase): Outcome {
    if target == c.phase then Outcome(c, Quiet) else Outcome(Enter(c, target), PhaseEntered)
  }

  function TurnLimit(phase: ConvPhase, st: Settings): int {
    match phase
    case Triage => 2
    case Diagnose => 4
    case _ => st.maxTurnsPerPhase
  }

  function RecordTurn(c: Core, st: Settings): Outcome {
    var counted := Note(c.(turns := c.turns + 1), Turn);
    if counted.turns >= TurnLimit(c.phase, st) then Advance(counted) else Outcome(counted, Quiet)
  }

  // phase_complete(service_category = ...) sets the category only in TRIAGE and only to a known value.
  function SetCategory(c: Core, category: Option<string>): Core {
    if && category.Some? && category.value != "" && c.call.Some?
       && c.call.value.phase.Triage? && category.value in SERVICE_CATEGORIES
    then Note(c.(call := Some(c.call.value.(category := category))), CategorySet(category.value))
    else c
  }

  predicate OverLimit(r: CallRecord, st: Settings) {
    r.frustration >= st.frustrationLimit || r.toolFailures >= st.toolFailureLimit
  }

  // check_escalation up to its first suspension.
  function CheckEscalation(c: Core, st: Settings): Outcome {
    if c.call.Some? && OverLimit(c.call.value, st) && !c.call.value.escalated then
      Outcome(
        Note(
          c.(call := Some(c.call.value.(escalated := true, hangupCause := Some("escalated"), state := Transferring))),
          Escalated),
        EscalationStarted)
    else Outcome(c, Quiet)
  }

  function CountFrustration(c: Core): Core {
    if c.call.Some? then c.(call := Some(c.call.value.(frustration := c.call.value.frustration + 1))) else c
  }

  function CountToolFailure(c: Core): Core {
    if c.call.Some? then c.(call := Some(c.call.value.(toolFailures := c.call.value.toolFailures + 1))) else c
  }

  // The record as call_controller.refer leaves it.
  function MarkTransferring(c: Core): Core {
    if c.call.Some? then c.(call := Some(c.call.value.(state := Transferring, hangupCause := Some("transferred"))))
      else c
  }

  function MarkHungUp(c: Core): Core {
    if c.call.Some? then c.(call := Some(c.call.value.(state := Ended, hangupCause := Some("normal")))) else c
  }

  function RecordTool(c: Core, tool: Tool): Core {
    Note(c.(called := c.called + {tool}), Completed(tool))
  }

  // A dispatch that returned. A refusal by the guard is an ordinary result, so it counts as success.
  function ToolReturned(c: Core, tool: Tool, allowed: bool, st: Settings): Outcome {
    if tool.EscalateToAgent? then
      Outcome(Note(RecordTool(if allowed then MarkTransferring(c) else c, tool), AgentClose(allowed)), Quiet)
    else CheckEscalation(RecordTool(c, tool), st)
  }

  function ToolBroke(c: Core, tool: Tool, st: Settings): Outcome {
    if tool.EscalateToAgent? then Outcome(CountToolFailure(c), Quiet)
    else CheckEscalation(CountToolFailure(c), st)
  }

  function Apply(c: Core, e: Event, st: Settings): Outcome {
    match e
    case ResponseCompleted => RecordTurn(c, st)
    case PhaseCompleted(category) => Advance(SetCategory(c, category))
    case NewIssue => Transition(if c.phase.Triage? then c else Note(c, LoopedBack), Triage)
    case Reconnect => Outcome(Enter(Note(c, Reconnected), c.phase), PhaseEntered)
    case ToolSucceeded(tool, allowed) => ToolReturned(c, tool, allowed, st)
    case ToolFailed(tool) => ToolBroke(c, tool, st)
    case CallerFrustrated => CheckEscalation(CountFrustration(c), st)
    case AutoReferIssued => Outcome(Note(c, AutoRefer), Quiet)
    case ReferAccepted => Outcome(MarkTransferring(c), Quiet)
    case HungUp => Outcome(MarkHungUp(c), Quiet)
  }

  // The call as the webhook leaves it before the session opens, if it is registered at all.
  predicate IsNewCall(call: Option<CallRecord>) {
    call.Some? ==>
      && call.value.phase.Greeting? && call.value.category.None?
      && !call.value.escalated && call.value.frustration == 0 && call.value.toolFailures == 0
  }

  // A fresh FSM that has entered GREETING on the first connection.
  function Start(call: Option<CallRecord>): Core {
    Enter(Core(Greeting, 0, {}, call, ToolList(Greeting, None), []), Greeting)
  }

  // ---- Phase, record and offer agree ----

  predicate Agrees(c: Core) {
    && (c.call.Some? ==> c.call.value.phase == c.phase)
    && c.offered == ToolList(c.phase, CategoryOf(c.call))
  }

  lemma StepKeepsAgreement(c: Core, e: Event, st: Settings)
    requires Agrees(c)
    ensures Agrees(Apply(c, e, st).core)
  {
  }

  // The agreement in terms of the tools: the offered names are those of the stored phase and
  // category, and the guard, which reads the stored phase, refuses none of them.
  lemma OfferIsCurrent(c: Core, tool: Tool)
    requires Agrees(c) && c.call.Some?
    ensures tool in c.offered <==> IsOffered(tool, c.call.value.phase, c.call.value.category)
    ensures tool in c.offered ==> Intercepted(tool) || GuardAllows(Canonical(tool), c.call.value.phase)
  {
    ToolListIsOffer(c.phase, CategoryOf(c.call));
    if tool in c.offered {
      OfferPassesGuard(tool, c.phase, CategoryOf(c.call));
    }
  }

  // Registering the same call id again replaces the record by a fresh one; the agreement
  // survives that exactly when the conversation is still in GREETING.
  lemma DuplicateRegistrationBreaksAgreement(c: Core, record: CallRecord)
    requires Agrees(c) && IsNewCall(Some(record))
    ensures Agrees(c.(call := Some(record))) <==> c.phase.Greeting?
  {
  }

  // ---- Advancing, verification and classification ----

  // advance() moves one phase on, except that a known caller goes from GREETING straight to TRIAGE.
  lemma AdvanceMoves(c: Core)
    ensures c.phase.WrapUp? ==> Advance(c).core.phase == c.phase && Advance(c).signal.SessionEnded?
    ensures !c.phase.WrapUp? ==>
      && Advance(c).signal.PhaseEntered?
      && OrderIndex(Advance(c).core.phase) - OrderIndex(c.phase) ==
           (if c.phase.Greeting? && IsKnown(c.call) then 2 else 1)
  {
  }

  // The phase advance() leaves behind; WRAP_UP ends the session instead of moving.
  function Following(phase: ConvPhase, known: bool): ConvPhase {
    match phase
    case Greeting => if known then Triage else Verify
    case Verify => Triage
    case Triage => Diagnose
    case Diagnose => Resolve
    case Resolve => WrapUp
    case WrapUp => WrapUp
  }

  // Phase entries and requested ends.
  function Moves(h: seq<Observation>): nat {
    if h == [] then 0
    else Moves(h[..|h| - 1]) + (if h[|h| - 1].Entered? || h[|h| - 1].EndRequested? then 1 else 0)
  }

  lemma AdvanceMovesOnce(c: Core)
    ensures var d := Advance(c).core;
      && d.phase == Following(c.phase, IsKnown(c.call)) && IsKnown(d.call) == IsKnown(c.call)
      && Moves(d.history) == Moves(c.history) + 1
      && Count(d.history, EndRequested) == Count(c.history, EndRequested) + (if c.phase.WrapUp? then 1 else 0)
  {
    hide ToolList;
    var d := Advance(c).core;
    assert d.history[..|d.history| - 1] == c.history;
  }

  lemma NoteMoves(c: Core, o: Observation)
    requires !o.Entered? && !o.EndRequested?
    ensures Moves(Note(c, o).history) == Moves(c.history)
    ensures Count(Note(c, o).history, EndRequested) == Count(c.history, EndRequested)
  {
    assert Note(c, o).history[..|c.history|] == c.history;
  }

  lemma SameCaller(c: Core, category: Option<string>)
    ensures SetCategory(c, category).phase == c.phase && IsKnown(SetCategory(c, category).call) == IsKnown(c.call)
  {
  }

  lemma FollowingIsWrapUp(phase: ConvPhase, known: bool)
    ensures Following(phase, known).WrapUp? <==> phase.Resolve? || phase.WrapUp?
  {
  }

  // A completed response followed by a phase_complete that was waiting for it, in any phase: below the turn
  // limit the conversation moves once, by the handler's own advance; at the limit it moves twice.
  lemma TurnThenCompletion(c: Core, category: Option<string>, st: Settings)
    ensures var f := Apply(Apply(c, ResponseCompleted, st).core, PhaseCompleted(category), st).core;
      var known := IsKnown(c.call);
      var below := c.turns + 1 < TurnLimit(c.phase, st);
      && Moves(f.history) == Moves(c.history) + (if below then 1 else 2)
      && f.phase == (if below then Following(c.phase, known) else Following(Following(c.phase, known), known))
      && (Count(f.history, EndRequested) > Count(c.history, EndRequested) <==>
            c.phase.WrapUp? || (!below && c.phase.Resolve?))
  {
    hide ToolList, Moves, Advance, Count, Following, TurnLimit, IsKnown;
    var counted := Note(c.(turns := c.turns + 1), Turn);
    NoteMoves(c.(turns := c.turns + 1), Turn);
    AdvanceMovesOnce(counted);
    var turned := RecordTurn(c, st).core;
    var s := SetCategory(turned, category);
    if s != turned {
      NoteMoves(turned, CategorySet(category.value));
    }
    SameCaller(turned, category);
    AdvanceMovesOnce(s);
    FollowingIsWrapUp(c.phase, IsKnown(c.call));
  }

  predicate BeforeTriage(phase: ConvPhase) { phase.Greeting? || phase.Verify? }

  // Position i was preceded by the verification phase or by a reported new issue.
  predicate Cleared(h: seq<Observation>, i: nat)
    requires i <= |h|
  {
    Entered(Verify) in h[..i] || LoopedBack in h[..i]
  }

  ghost predicate PhaseSafe(c: Core) {
    && (IsKnown(c.call) ==> Entered(Verify) !in c.history && !c.phase.Verify?)
    && (!IsKnown(c.call) ==>
          && (forall i :: 0 <= i < |c.history| && c.history[i].Entered? && !BeforeTriage(c.history[i].phase) ==>
                Cleared(c.history, i))
          && (!BeforeTriage(c.phase) ==> Cleared(c.history, |c.history|))
          && (c.phase.Verify? ==> Entered(Verify) in c.history))
    && (CategoryOf(c.call).Some? ==> CategoryOf(c.call).value in SERVICE_CATEGORIES)
  }

  // Identity never changes, and the category changes only by a valid phase_complete in TRIAGE.
  lemma StepKeepsIdentity(c: Core, e: Event, st: Settings)
    ensures var d := Apply(c, e, st).core;
      && d.call.Some? == c.call.Some?
      && (c.call.Some? ==> d.call.value.accountId == c.call.value.accountId)
      && (CategoryOf(d.call) != CategoryOf(c.call) ==>
            && e.PhaseCompleted? && c.call.Some? && c.call.value.phase.Triage?
            && CategoryOf(d.call) == e.category && e.category.Some? && e.category.value in SERVICE_CATEGORIES)
  {
  }

  lemma EnterKeepsSafety(c: Core, phase: ConvPhase)
    requires PhaseSafe(c)
    requires IsKnown(c.call) ==> !phase.Verify?
    requires !IsKnown(c.call) && !BeforeTriage(phase) ==> Cleared(c.history, |c.history|)
    ensures PhaseSafe(Enter(c, phase))
  {
    var h, h' := c.history, Enter(c, phase).history;
    assert h'[..|h|] == h[..|h|] == h;
    assert forall i :: 0 <= i < |h| ==> h'[..i] == h[..i];
    assert h' == h'[..|h'|];
  }

  lemma NoteKeepsSafety(c: Core, o: Observation)
    requires PhaseSafe(c) && !o.Entered?
    ensures PhaseSafe(Note(c, o))
  {
    var h, h' := c.history, Note(c, o).history;
    assert forall i :: 0 <= i <= |h| ==> h'[..i] == h[..i];
    assert h == h[..|h|] && h' == h'[..|h'|];
  }

  // Fields other than phase, history, identity and category play no part in PhaseSafe.
  lemma SafetyIgnoresRest(c: Core, d: Core)
    requires PhaseSafe(c) && d.phase == c.phase && d.history == c.history
    requires IsKnown(d.call) == IsKnown(c.call)
    requires CategoryOf(d.call) == CategoryOf(c.call)
      || (CategoryOf(d.call).Some? && CategoryOf(d.call).value in SERVICE_CATEGORIES)
    ensures PhaseSafe(d)
  {
  }

  lemma AdvanceKeepsSafety(c: Core)
    requires PhaseSafe(c)
    ensures PhaseSafe(Advance(c).core)
  {
    assert c.history[..|c.history|] == c.history;
    if c.phase.WrapUp? {
      NoteKeepsSafety(c, EndRequested);
      SafetyIgnoresRest(Note(c, EndRequested), EndSession(c));
    } else {
      EnterKeepsSafety(c, NextPhase(c));
    }
  }

  lemma CheckKeepsSafety(c: Core, st: Settings)
    requires PhaseSafe(c)
    ensures PhaseSafe(CheckEscalation(c, st).core)
  {
    NoteKeepsSafety(c, Escalated);
    if CheckEscalation(c, st).signal.EscalationStarted? {
      SafetyIgnoresRest(Note(c, Escalated), CheckEscalation(c, st).core);
    }
  }

  lemma ToolKeepsSafety(c: Core, tool: Tool, allowed: bool, st: Settings)
    requires PhaseSafe(c)
    ensures PhaseSafe(ToolReturned(c, tool, allowed, st).core)
  {
    var base := if tool.EscalateToAgent? && allowed then MarkTransferring(c) else c;
    SafetyIgnoresRest(c, base.(called := base.called + {tool}));
    NoteKeepsSafety(base.(called := base.called + {tool}), Completed(tool));
    if tool.EscalateToAgent? {
      NoteKeepsSafety(RecordTool(base, tool), AgentClose(allowed));
    } else {
      CheckKeepsSafety(RecordTool(c, tool), st);
    }
  }

  lemma LoopbackKeepsSafety(c: Core)
    requires PhaseSafe(c)
    ensures PhaseSafe(Note(c, LoopedBack)) && PhaseSafe(Enter(Note(c, LoopedBack), Triage))
  {
    hide ToolList;
    NoteKeepsSafety(c, LoopedBack);
    var d := Note(c, LoopedBack);
    assert d.history[|c.history|] == LoopedBack && d.history[..|d.history|] == d.history;
    EnterKeepsSafety(d, Triage);
  }

  lemma ReentryKeepsSafety(c: Core)
    requires PhaseSafe(c)
    ensures PhaseSafe(Enter(c, c.phase))
  {
    EnterKeepsSafety(c, c.phase);
  }

  lemma StepKeepsSafety(c: Core, e: Event, st: Settings)
    requires PhaseSafe(c)
    ensures PhaseSafe(Apply(c, e, st).core)
  {
    hide ToolList, PhaseSafe;
    match e
    case ResponseCompleted =>
      SafetyIgnoresRest(c, c.(turns := c.turns + 1));
      NoteKeepsSafety(c.(turns := c.turns + 1), Turn);
      AdvanceKeepsSafety(Note(c.(turns := c.turns + 1), Turn));
    case PhaseCompleted(category) =>
      if SetCategory(c, category) != c {
        NoteKeepsSafety(c, CategorySet(category.value));
        SafetyIgnoresRest(Note(c, CategorySet(category.value)), SetCategory(c, category));
      }
      AdvanceKeepsSafety(SetCategory(c, category));
    case NewIssue =>
      LoopbackKeepsSafety(c);
    case Reconnect =>
      NoteKeepsSafety(c, Reconnected);
      ReentryKeepsSafety(Note(c, Reconnected));
    case ToolSucceeded(tool, allowed) =>
      ToolKeepsSafety(c, tool, allowed, st);
    case ToolFailed(tool) =>
      SafetyIgnoresRest(c, CountToolFailure(c));
      CheckKeepsSafety(CountToolFailure(c), st);
    case CallerFrustrated =>
      SafetyIgnoresRest(c, CountFrustration(c));
      CheckKeepsSafety(CountFrustration(c), st);
    case AutoReferIssued =>
      NoteKeepsSafety(c, AutoRefer);
    case ReferAccepted =>
      SafetyIgnoresRest(c, MarkTransferring(c));
    case HungUp =>
      SafetyIgnoresRest(c, MarkHungUp(c));
  }

  // ---- Bounded conversation ----

  function Max(a: int, b: int): int { if a > b then a else b }

  // A configured limit below one acts like one, because the counter is bumped before the test.
  function Cap(phase: ConvPhase, st: Settings): int {
    Max(TurnLimit(phase, st), 1)
  }

  // Turns available in the phases after this one.
  function Later(phase: ConvPhase, st: Settings): nat
    decreases |PHASE_ORDER| - OrderIndex(phase)
  {
    if phase.WrapUp? then 0
    else
      var next := PHASE_ORDER[OrderIndex(phase) + 1];
      Cap(next, st) + Later(next, st)
  }

  // Completed responses the current visit and all later phases can still absorb.
  function Rank(c: Core, st: Settings): int {
    Cap(c.phase, st) - c.turns + Later(c.phase, st)
  }

  function Count(h: seq<Observation>, o: Observation): nat {
    multiset(h)[o]
  }

  // With m = max(max_turns_per_phase, 1): 4m+6, plus 2m+5 per loopback, plus max(m,4)-1 per reconnect.
  function TurnBudget(c: Core, st: Settings): int {
    var m := Max(st.maxTurnsPerPhase, 1);
    4 * m + 6 + Count(c.history, LoopedBack) * (2 * m + 5) + Count(c.history, Reconnected) * (Max(m, 4) - 1)
  }

  predicate WithinBudget(c: Core, st: Settings) {
    EndRequested !in c.history ==>
      && c.turns < Cap(c.phase, st)
      && Count(c.history, Turn) + Rank(c, st) <= TurnBudget(c, st)
  }

  lemma LaterValues(st: Settings)
    ensures var m := Max(st.maxTurnsPerPhase, 1);
      && Later(WrapUp, st) == 0 && Later(Resolve, st) == m && Later(Diagnose, st) == 2 * m
      && Later(Triage, st) == 2 * m + 4 && Later(Verify, st) == 2 * m + 6 && Later(Greeting, st) == 3 * m + 6
  {
    assert Later(Resolve, st) == Cap(WrapUp, st) + Later(WrapUp, st);
    assert Later(Diagnose, st) == Cap(Resolve, st) + Later(Resolve, st);
    assert Later(Triage, st) == Cap(Diagnose, st) + Later(Diagnose, st);
    assert Later(Verify, st) == Cap(Triage, st) + Later(Triage, st);
    assert Later(Greeting, st) == Cap(Verify, st) + Later(Verify, st);
  }

  // Leaving a phase early never raises the rank above what the later phases hold.
  lemma AdvanceRank(c: Core, st: Settings)
    ensures EndRequested !in Advance(c).core.history ==> Rank(Advance(c).core, st) <= Later(c.phase, st)
  {
    LaterValues(st);
    if c.phase.WrapUp? {
      assert EndSession(c).history[|c.history|] == EndRequested;
    }
  }

  // Nothing but the phase, the turn counter and four history counts matters to the budget.
  lemma BudgetTransfers(c: Core, d: Core, st: Settings)
    requires WithinBudget(c, st) && EndRequested !in c.history
    requires d.turns < Cap(d.phase, st)
    requires Count(d.history, LoopedBack) == Count(c.history, LoopedBack)
      && Count(d.history, Reconnected) == Count(c.history, Reconnected)
    requires Count(d.history, Turn) + Rank(d, st) <= Count(c.history, Turn) + Rank(c, st)
    ensures WithinBudget(d, st)
  {
  }

  lemma TurnBudgeted(c: Core, st: Settings)
    requires WithinBudget(c, st) && EndRequested !in c.history
    ensures WithinBudget(RecordTurn(c, st).core, st)
  {
    var counted := Note(c.(turns := c.turns + 1), Turn);
    var d := RecordTurn(c, st).core;
    if EndRequested !in d.history {
      AdvanceRank(counted, st);
      assert d.history == counted.history || d.history == counted.history + [Entered(d.phase)];
      BudgetTransfers(c, d, st);
    }
  }

  lemma AdvanceBudgeted(c: Core, st: Settings)
    requires WithinBudget(c, st) && EndRequested !in c.history
    ensures WithinBudget(Advance(c).core, st)
  {
    var d := Advance(c).core;
    if EndRequested !in d.history {
      AdvanceRank(c, st);
      assert d.history == c.history + [Entered(d.phase)];
      BudgetTransfers(c, d, st);
    }
  }

  lemma ToolBudgeted(c: Core, d: Core, extra: seq<Observation>, st: Settings)
    requires WithinBudget(c, st) && EndRequested !in c.history
    requires d.phase == c.phase && d.turns == c.turns && d.history == c.history + extra
    requires Turn !in extra && LoopedBack !in extra && Reconnected !in extra
    ensures WithinBudget(d, st)
  {
    BudgetTransfers(c, d, st);
  }

  lemma CheckBudgeted(c: Core, st: Settings)
    requires WithinBudget(c, st) && EndRequested !in c.history
    ensures WithinBudget(CheckEscalation(c, st).core, st)
  {
    hide WithinBudget;
    var d := CheckEscalation(c, st).core;
    if d != c {
      ToolBudgeted(c, d, [Escalated], st);
    }
  }

  lemma ToolReturnBudgeted(c: Core, tool: Tool, allowed: bool, st: Settings)
    requires WithinBudget(c, st) && EndRequested !in c.history
    ensures WithinBudget(ToolReturned(c, tool, allowed, st).core, st)
  {
    hide WithinBudget, CheckEscalation;
    if tool.EscalateToAgent? {
      var d := ToolReturned(c, tool, allowed, st).core;
      assert d.history == c.history + [Completed(tool), AgentClose(allowed)];
      ToolBudgeted(c, d, [Completed(tool), AgentClose(allowed)], st);
    } else {
      ToolBudgeted(c, RecordTool(c, tool), [Completed(tool)], st);
      CheckBudgeted(RecordTool(c, tool), st);
    }
  }

  lemma EndedIsWithin(c: Core, st: Settings)
    requires EndRequested in c.history
    ensures WithinBudget(c, st)
  {
  }

  lemma StepKeepsBudget(c: Core, e: Event, st: Settings)
    requires WithinBudget(c, st)
    ensures WithinBudget(Apply(c, e, st).core, st)
  {
    hide ToolList, WithinBudget, RecordTurn, Advance, Transition, ToolReturned, CheckEscalation;
    var d := Apply(c, e, st).core;
    HistoryGrows(c, e, st);
    if EndRequested in d.history {
      EndedIsWithin(d, st);
    } else {
      assert EndRequested !in c.history;
      match e
      case ResponseCompleted =>
        TurnBudgeted(c, st);
      case PhaseCompleted(category) =>
        var s := SetCategory(c, category);
        if s != c {
          ToolBudgeted(c, s, [CategorySet(category.value)], st);
        }
        AdvanceBudgeted(s, st);
      case NewIssue =>
        LoopbackBudget(c, st);
      case Reconnect =>
        ReconnectBudget(c, st);
      case ToolSucceeded(tool, allowed) =>
        ToolReturnBudgeted(c, tool, allowed, st);
      case ToolFailed(tool) =>
        ToolBudgeted(c, CountToolFailure(c), [], st);
        CheckBudgeted(CountToolFailure(c), st);
      case CallerFrustrated =>
        ToolBudgeted(c, CountFrustration(c), [], st);
        CheckBudgeted(CountFrustration(c), st);
      case AutoReferIssued =>
        ToolBudgeted(c, d, [AutoRefer], st);
      case ReferAccepted =>
        ToolBudgeted(c, d, [], st);
      case HungUp =>
        ToolBudgeted(c, d, [], st);
    }
  }

  lemma HistoryGrows(c: Core, e: Event, st: Settings)
    ensures c.history <= Apply(c, e, st).core.history
  {
  }

  lemma OneMore(k: nat, n: int)
    ensures (k + 1) * n == k * n + n
  {
  }

  // What a loopback and a reconnect add to the counts the budget reads.
  lemma LoopbackCounts(c: Core, st: Settings)
    ensures var d := Apply(c, NewIssue, st).core;
      && Count(d.history, LoopedBack) == Count(c.history, LoopedBack) + (if c.phase.Triage? then 0 else 1)
      && Count(d.history, Reconnected) == Count(c.history, Reconnected)
        && Count(d.history, Turn) == Count(c.history, Turn)
    ensures var d := Apply(c, Reconnect, st).core;
      && Count(d.history, LoopedBack) == Count(c.history, LoopedBack)
      && Count(d.history, Reconnected) == Count(c.history, Reconnected) + 1
        && Count(d.history, Turn) == Count(c.history, Turn)
  {
    hide ToolList;
  }

  lemma LoopbackBudget(c: Core, st: Settings)
    requires WithinBudget(c, st) && EndRequested !in c.history
    ensures WithinBudget(Apply(c, NewIssue, st).core, st)
  {
    hide ToolList, Later, Count;
    var d := Apply(c, NewIssue, st).core;
    var m := Max(st.maxTurnsPerPhase, 1);
    LaterValues(st);
    LoopbackCounts(c, st);
    OneMore(Count(c.history, LoopedBack), 2 * m + 5);
  }

  lemma ReconnectBudget(c: Core, st: Settings)
    requires WithinBudget(c, st) && EndRequested !in c.history
    ensures WithinBudget(Apply(c, Reconnect, st).core, st)
  {
    hide ToolList, Later, Count;
    var m := Max(st.maxTurnsPerPhase, 1);
    LoopbackCounts(c, st);
    OneMore(Count(c.history, Reconnected), Max(m, 4) - 1);
  }

  lemma Scaled(a: nat, b: nat, n: nat)
    requires a <= b
    ensures a * n <= b * n
  {
  }

  // With at most n reconnects the budget is a number of m and the loopbacks alone.
  lemma BudgetCapped(c: Core, st: Settings, n: nat)
    requires WithinBudget(c, st) && Count(c.history, Reconnected) <= n
    requires var m := Max(st.maxTurnsPerPhase, 1);
      Count(c.history, Turn) >= 4 * m + 6 + Count(c.history, LoopedBack) * (2 * m + 5) + n * (Max(m, 4) - 1)
    ensures EndRequested in c.history
  {
    hide Count, Later;
    Scaled(Count(c.history, Reconnected), n, Max(Max(st.maxTurnsPerPhase, 1), 4) - 1);
  }

  // The budget is tight: a caller never identified, whose model only talks, is let go after
  // exactly 4m+6 completed responses.
  function Silent(call: Option<CallRecord>, turns: nat, st: Settings): Core {
    if turns == 0 then Start(call) else RecordTurn(Silent(call, turns - 1, st), st).core
  }

  lemma SilentTurn(c: Core, st: Settings)
    requires EndRequested !in c.history && c.turns < Cap(c.phase, st) && !IsKnown(c.call)
    ensures var d := RecordTurn(c, st).core;
      && !IsKnown(d.call)
      && (Rank(c, st) == 1 ==> EndRequested in d.history)
      && (Rank(c, st) > 1 ==>
            EndRequested !in d.history && d.turns < Cap(d.phase, st) && Rank(d, st) == Rank(c, st) - 1)
  {
    hide ToolList;
    LaterValues(st);
    var counted := Note(c.(turns := c.turns + 1), Turn);
    if c.turns + 1 >= TurnLimit(c.phase, st) && c.phase.WrapUp? {
      assert EndSession(counted).history[|counted.history|] == EndRequested;
    }
  }

  lemma {:induction false} SilentCallerIsLetGo(call: Option<CallRecord>, turns: nat, st: Settings)
    requires !IsKnown(call)
    requires turns <= 4 * Max(st.maxTurnsPerPhase, 1) + 6
    ensures !IsKnown(Silent(call, turns, st).call)
    ensures EndRequested in Silent(call, turns, st).history <==> turns == 4 * Max(st.maxTurnsPerPhase, 1) + 6
    ensures turns < 4 * Max(st.maxTurnsPerPhase, 1) + 6 ==>
      var c := Silent(call, turns, st);
      c.turns < Cap(c.phase, st) && Rank(c, st) == 4 * Max(st.maxTurnsPerPhase, 1) + 6 - turns
  {
    hide ToolList;
    LaterValues(st);
    if turns > 0 {
      SilentCallerIsLetGo(call, turns - 1, st);
      SilentTurn(Silent(call, turns - 1, st), st);
    }
  }

  // ---- Once per phase visit ----

  // Tools completed since the latest phase entry.
  function SinceEntry(h: seq<Observation>): set<Tool> {
    if h == [] then {}
    else
      var last := h[|h| - 1];
      if last.Entered? then {}
      else SinceEntry(h[..|h| - 1]) + (if last.Completed? then {last.tool} else {})
  }

  // Between two completions of the same one-call tool there is a phase entry.
  ghost predicate OncePerVisit(h: seq<Observation>) {
    forall i, j :: 0 <= i < j < |h| && h[i].Completed? && h[i] == h[j] && IsOneCall(h[i].tool) ==>
      exists k :: i < k < j && h[k].Entered?
  }

  lemma SinceEntrySnoc(h: seq<Observation>, o: Observation)
    ensures SinceEntry(h + [o]) ==
      if o.Entered? then {} else SinceEntry(h) + (if o.Completed? then {o.tool} else {})
  {
    assert (h + [o])[..|h|] == h;
  }

  // A completion with no entry after it is remembered.
  lemma {:induction false} SinceEntryRemembers(h: seq<Observation>, i: nat)
    requires i < |h| && h[i].Completed? && (forall k :: i < k < |h| ==> !h[k].Entered?)
    ensures h[i].tool in SinceEntry(h)
  {
    var rest := h[..|h| - 1];
    if i < |h| - 1 {
      SinceEntryRemembers(rest, i);
    }
  }

  lemma OnceSnoc(h: seq<Observation>, o: Observation)
    requires OncePerVisit(h)
    requires o.Completed? && IsOneCall(o.tool) ==> o.tool !in SinceEntry(h)
    ensures OncePerVisit(h + [o])
  {
    var h' := h + [o];
    forall i, j | 0 <= i < j < |h'| && h'[i].Completed? && h'[i] == h'[j] && IsOneCall(h'[i].tool)
      ensures exists k :: i < k < j && h'[k].Entered?
    {
      if j < |h| {
        var k :| i < k < j && h[k].Entered?;
        assert h'[k].Entered?;
      } else if forall k :: i < k < |h| ==> !h[k].Entered? {
        SinceEntryRemembers(h, i);
      } else {
        var k :| i < k < |h| && h[k].Entered?;
        assert h'[k].Entered?;
      }
    }
  }

  predicate VisitTracked(c: Core) {
    SinceEntry(c.history) == c.called
  }

  lemma NoteKeepsTracking(c: Core, o: Observation)
    requires VisitTracked(c) && !o.Entered? && !o.Completed?
    ensures VisitTracked(Note(c, o))
  {
    SinceEntrySnoc(c.history, o);
  }

  lemma AdvanceKeepsTracking(c: Core)
    requires VisitTracked(c)
    ensures VisitTracked(Advance(c).core)
  {
    if c.phase.WrapUp? {
      SinceEntrySnoc(c.history, EndRequested);
    } else {
      SinceEntrySnoc(c.history, Entered(NextPhase(c)));
    }
  }

  lemma CheckKeepsTracking(c: Core, st: Settings)
    requires VisitTracked(c)
    ensures VisitTracked(CheckEscalation(c, st).core)
  {
    SinceEntrySnoc(c.history, Escalated);
  }

  // Nothing but the history and the visit's tools plays a part.
  lemma TrackingIgnoresRest(c: Core, d: Core)
    requires VisitTracked(c) && d.history == c.history && d.called == c.called
    ensures VisitTracked(d)
  {
  }

  lemma EntryKeepsTracking(c: Core, phase: ConvPhase)
    ensures VisitTracked(Enter(c, phase))
  {
    hide ToolList;
    SinceEntrySnoc(c.history, Entered(phase));
  }

  lemma RecordKeepsTracking(c: Core, tool: Tool)
    requires VisitTracked(c)
    ensures VisitTracked(RecordTool(c, tool))
  {
    SinceEntrySnoc(c.history, Completed(tool));
  }

  lemma ToolKeepsTracking(c: Core, tool: Tool, allowed: bool, st: Settings)
    requires VisitTracked(c)
    ensures VisitTracked(ToolReturned(c, tool, allowed, st).core)
  {
    hide VisitTracked, CheckEscalation;
    var base := if tool.EscalateToAgent? && allowed then MarkTransferring(c) else c;
    TrackingIgnoresRest(c, base);
    RecordKeepsTracking(base, tool);
    if tool.EscalateToAgent? {
      NoteKeepsTracking(RecordTool(base, tool), AgentClose(allowed));
    } else {
      CheckKeepsTracking(RecordTool(c, tool), st);
    }
  }

  // The tools of the current visit are tracked by every event.
  lemma StepKeepsTracking(c: Core, e: Event, st: Settings)
    requires VisitTracked(c)
    ensures VisitTracked(Apply(c, e, st).core)
  {
    hide VisitTracked, CheckEscalation, Advance, ToolReturned, Enter, TurnLimit, Note;
    match e
    case ResponseCompleted =>
      TrackingIgnoresRest(c, c.(turns := c.turns + 1));
      NoteKeepsTracking(c.(turns := c.turns + 1), Turn);
      AdvanceKeepsTracking(Note(c.(turns := c.turns + 1), Turn));
    case PhaseCompleted(category) =>
      CategoryKeepsTracking(c, category);
      AdvanceKeepsTracking(SetCategory(c, category));
    case NewIssue =>
      EntryKeepsTracking(Note(c, LoopedBack), Triage);
      NotedPhase(c, LoopedBack);
    case Reconnect =>
      EntryKeepsTracking(Note(c, Reconnected), c.phase);
      NotedPhase(c, Reconnected);
    case ToolSucceeded(tool, allowed) =>
      ToolKeepsTracking(c, tool, allowed, st);
    case ToolFailed(tool) =>
      TrackingIgnoresRest(c, CountToolFailure(c));
      CheckKeepsTracking(CountToolFailure(c), st);
    case CallerFrustrated =>
      TrackingIgnoresRest(c, CountFrustration(c));
      CheckKeepsTracking(CountFrustration(c), st);
    case AutoReferIssued =>
      NoteKeepsTracking(c, AutoRefer);
    case ReferAccepted =>
      TrackingIgnoresRest(c, MarkTransferring(c));
    case HungUp =>
      TrackingIgnoresRest(c, MarkHungUp(c));
  }

  lemma NotedPhase(c: Core, o: Observation)
    ensures Note(c, o).phase == c.phase
  {
  }

  lemma CategoryKeepsTracking(c: Core, category: Option<string>)
    requires VisitTracked(c)
    ensures VisitTracked(SetCategory(c, category))
  {
    hide VisitTracked;
    if SetCategory(c, category) != c {
      NoteKeepsTracking(c, CategorySet(category.value));
      TrackingIgnoresRest(Note(c, CategorySet(category.value)), SetCategory(c, category));
    }
  }

  // An event adds at most two observations, the first of which may be its tool's completion.
  lemma HistoryNews(c: Core, e: Event, st: Settings)
    ensures var h := Apply(c, e, st).core.history;
      && |h| <= |c.history| + 2
      && (forall i :: |c.history| <= i < |h| && h[i].Completed? ==>
            i == |c.history| && e.ToolSucceeded? && h[i].tool == e.tool)
  {
    hide ToolList;
  }

  // The rule is kept by every event whose completing tool had not completed on this visit.
  lemma StepKeepsOnce(c: Core, e: Event, st: Settings)
    requires VisitTracked(c) && OncePerVisit(c.history)
    requires e.ToolSucceeded? && IsOneCall(e.tool) ==> e.tool !in c.called
    ensures OncePerVisit(Apply(c, e, st).core.history)
  {
    hide Apply;
    var d := Apply(c, e, st).core;
    HistoryGrows(c, e, st);
    HistoryNews(c, e, st);
    var news := d.history[|c.history|..];
    assert d.history == c.history + news;
    if |news| == 1 {
      OnceSnoc(c.history, news[0]);
      assert d.history == c.history + [news[0]];
    } else if |news| == 2 {
      OnceSnoc(c.history, news[0]);
      OnceSnoc(c.history + [news[0]], news[1]);
      assert d.history == c.history + [news[0]] + [news[1]];
    }
  }

  // ---- The same rule for what the requested names stand for ----

  // Between two completions that reach the same one-call tool, by whatever name, there is a phase entry.
  ghost predicate CanonicalOncePerVisit(h: seq<Observation>) {
    forall i, j :: 0 <= i < j < |h| && h[i].Completed? && h[j].Completed?
                   && Canonical(h[i].tool) == Canonical(h[j].tool) && IsOneCall(Canonical(h[i].tool)) ==>
      exists k :: i < k < j && h[k].Entered?
  }

  // A tool that has completed on this visit and reaches the same one-call tool.
  predicate Repeats(tool: Tool, called: set<Tool>) {
    IsOneCall(Canonical(tool)) && exists u :: u in called && Canonical(u) == Canonical(tool)
  }

  lemma {:induction false} SinceEntryWitness(h: seq<Observation>, tool: Tool) returns (i: nat)
    requires tool in SinceEntry(h)
    ensures i < |h| && h[i] == Completed(tool) && (forall k :: i < k < |h| ==> !h[k].Entered?)
  {
    var n := |h| - 1;
    if h[n] == Completed(tool) {
      i := n;
    } else {
      i := SinceEntryWitness(h[..n], tool);
    }
  }

  lemma CanonicalSnoc(h: seq<Observation>, o: Observation)
    requires CanonicalOncePerVisit(h)
    ensures CanonicalOncePerVisit(h + [o]) <==> !(o.Completed? && Repeats(o.tool, SinceEntry(h)))
  {
    var h' := h + [o];
    if o.Completed? && Repeats(o.tool, SinceEntry(h)) {
      var u :| u in SinceEntry(h) && Canonical(u) == Canonical(o.tool);
      var i := SinceEntryWitness(h, u);
      assert h'[i] == h[i] && h'[|h|] == o && forall k :: i < k < |h| ==> h'[k] == h[k];
    } else {
      forall i, j | 0 <= i < j < |h'| && h'[i].Completed? && h'[j].Completed?
                    && Canonical(h'[i].tool) == Canonical(h'[j].tool) && IsOneCall(Canonical(h'[i].tool))
        ensures exists k :: i < k < j && h'[k].Entered?
      {
        if j < |h| {
          var k :| i < k < j && h[k].Entered?;
          assert h'[k].Entered?;
        } else if forall k :: i < k < |h| ==> !h[k].Entered? {
          SinceEntryRemembers(h, i);
        } else {
          var k :| i < k < |h| && h[k].Entered?;
          assert h'[k].Entered?;
        }
      }
    }
  }

  // A completing tool keeps the rule if and only if nothing that reaches the same one-call tool has
  // completed on this visit. The code looks for its own requested name only.
  lemma CompletionKeepsCanonicalRule(c: Core, tool: Tool, allowed: bool, st: Settings)
    requires VisitTracked(c) && CanonicalOncePerVisit(c.history)
    ensures CanonicalOncePerVisit(Apply(c, ToolSucceeded(tool, allowed), st).core.history) <==>
      !Repeats(tool, c.called)
  {
    hide CanonicalOncePerVisit, Repeats, OverLimit, Canonical;
    var h, d := c.history + [Completed(tool)], Apply(c, ToolSucceeded(tool, allowed), st).core;
    CanonicalSnoc(c.history, Completed(tool));
    if |d.history| > |h| {
      var o := d.history[|h|];
      assert d.history == h + [o];
      if CanonicalOncePerVisit(h) {
        CanonicalSnoc(h, o);
      } else {
        CanonicalPrefix(h, o);
      }
    } else {
      assert d.history == h;
    }
  }

  lemma CanonicalPrefix(h: seq<Observation>, o: Observation)
    ensures CanonicalOncePerVisit(h + [o]) ==> CanonicalOncePerVisit(h)
  {
    var h' := h + [o];
    assert forall i :: 0 <= i < |h| ==> h[i] == h'[i];
    forall i, j | CanonicalOncePerVisit(h') && 0 <= i < j < |h| && h[i].Completed? && h[j].Completed?
                  && Canonical(h[i].tool) == Canonical(h[j].tool) && IsOneCall(Canonical(h[i].tool))
      ensures exists k :: i < k < j && h[k].Entered?
    {
      var k :| i < k < j && h'[k].Entered?;
      assert h[k].Entered?;
    }
  }

  // Completions under own names only: then the two rules are one.
  lemma OwnNamesSuffice(h: seq<Observation>)
    requires OncePerVisit(h)
    requires forall o :: o in h && o.Completed? && IsOneCall(Canonical(o.tool)) ==> Canonical(o.tool) == o.tool
    ensures CanonicalOncePerVisit(h)
  {
    hide Canonical, IsOneCall;
    forall i, j | 0 <= i < j < |h| && h[i].Completed? && h[j].Completed?
                  && Canonical(h[i].tool) == Canonical(h[j].tool) && IsOneCall(Canonical(h[i].tool))
      ensures exists k :: i < k < j && h[k].Entered?
    {
      assert h[i] in h && h[j] in h;
    }
  }

  // ---- Automatic escalation ----

  // One escalation per record, and only past a limit.
  predicate EscalatedOnce(c: Core, st: Settings) {
    && Count(c.history, Escalated) == (if c.call.Some? && c.call.value.escalated then 1 else 0)
    && (c.call.Some? && c.call.value.escalated ==> OverLimit(c.call.value, st))
  }

  // The escalation and reconnect observations an event adds.
  function Marks(e: Event, started: bool, x: Observation): nat {
    if (x.Escalated? && started) || (x.AutoRefer? && e.AutoReferIssued?) || (x.Reconnected? && e.Reconnect?) then 1
    else 0
  }

  lemma NoteCounts(c: Core, o: Observation, x: Observation)
    ensures Count(Note(c, o).history, x) == Count(c.history, x) + (if o == x then 1 else 0)
  {
  }

  lemma AdvanceCounts(c: Core, x: Observation)
    requires x.Escalated? || x.AutoRefer? || x.Reconnected?
    ensures Count(Advance(c).core.history, x) == Count(c.history, x)
  {
    NoteCounts(c, EndRequested, x);
    if !c.phase.WrapUp? {
      NoteCounts(c, Entered(NextPhase(c)), x);
    }
  }

  lemma ToolCounts(c: Core, tool: Tool, allowed: bool, st: Settings, x: Observation)
    requires x.Escalated? || x.AutoRefer? || x.Reconnected?
    ensures var o := ToolReturned(c, tool, allowed, st);
      Count(o.core.history, x) == Count(c.history, x) + (if x.Escalated? && o.signal.EscalationStarted? then 1 else 0)
  {
    NoteCounts(c, Completed(tool), x);
    NoteCounts(RecordTool(c, tool), AgentClose(allowed), x);
    NoteCounts(RecordTool(c, tool), Escalated, x);
  }

  lemma EventCounts(c: Core, e: Event, st: Settings, x: Observation)
    requires x.Escalated? || x.AutoRefer? || x.Reconnected?
    ensures var o := Apply(c, e, st);
      Count(o.core.history, x) == Count(c.history, x) + Marks(e, o.signal.EscalationStarted?, x)
  {
    hide ToolList, Count, OverLimit, NextPhase;
    match e
    case ResponseCompleted =>
      NoteCounts(c, Turn, x);
      AdvanceCounts(Note(c.(turns := c.turns + 1), Turn), x);
    case PhaseCompleted(category) =>
      if SetCategory(c, category) != c {
        NoteCounts(c, CategorySet(category.value), x);
      }
      AdvanceCounts(SetCategory(c, category), x);
    case NewIssue =>
      NoteCounts(c, LoopedBack, x);
      NoteCounts(Note(c, LoopedBack), Entered(Triage), x);
    case Reconnect =>
      NoteCounts(c, Reconnected, x);
      NoteCounts(Note(c, Reconnected), Entered(c.phase), x);
    case ToolSucceeded(tool, allowed) =>
      ToolCounts(c, tool, allowed, st, x);
    case ToolFailed(tool) =>
      NoteCounts(c, Escalated, x);
    case CallerFrustrated =>
      NoteCounts(c, Escalated, x);
    case AutoReferIssued =>
      NoteCounts(c, AutoRefer, x);
    case ReferAccepted =>
    case HungUp =>
  }

  // Only a reconnect is counted as one.
  lemma ReconnectCounts(c: Core, e: Event, st: Settings)
    ensures Count(Apply(c, e, st).core.history, Reconnected) ==
      Count(c.history, Reconnected) + (if e.Reconnect? then 1 else 0)
  {
    hide Apply, Count;
    EventCounts(c, e, st, Reconnected);
  }

  // The counters never decrease, the escalated mark never clears, and it is set only past a limit.
  lemma CountersGrow(c: Core, e: Event, st: Settings)
    ensures var o := Apply(c, e, st);
      && o.core.call.Some? == c.call.Some?
      && (c.call.Some? ==>
            && c.call.value.frustration <= o.core.call.value.frustration
            && c.call.value.toolFailures <= o.core.call.value.toolFailures
            && (o.core.call.value.escalated <==> c.call.value.escalated || o.signal.EscalationStarted?))
      && (o.signal.EscalationStarted? ==>
            c.call.Some? && !c.call.value.escalated && OverLimit(o.core.call.value, st))
  {
  }

  lemma StepKeepsEscalation(c: Core, e: Event, st: Settings)
    requires EscalatedOnce(c, st)
    ensures EscalatedOnce(Apply(c, e, st).core, st)
    ensures Apply(c, e, st).signal.EscalationStarted? ==> Count(c.history, Escalated) == 0
  {
    hide Apply, Count;
    EventCounts(c, e, st, Escalated);
    CountersGrow(c, e, st);
  }

  // ---- What each event leaves in the record ----

  // The end of the session is requested exactly by a phase_complete in WRAP_UP, and by the response that
  // reaches the configured number of turns there.
  lemma EndsExactly(c: Core, e: Event, st: Settings)
    ensures EndRequested in Apply(c, e, st).core.history <==>
      || EndRequested in c.history
      || (c.phase.WrapUp? && (e.PhaseCompleted? || (e.ResponseCompleted? && c.turns + 1 >= st.maxTurnsPerPhase)))
  {
    hide ToolList, OverLimit, NextPhase;
    var d := Apply(c, e, st).core;
    HistoryGrows(c, e, st);
    if e.PhaseCompleted? && c.phase.WrapUp? {
      assert d.history[|d.history| - 1] == EndRequested;
    } else if e.ResponseCompleted? && c.phase.WrapUp? && c.turns + 1 >= st.maxTurnsPerPhase {
      assert d.history[|d.history| - 1] == EndRequested;
    }
  }

  // The event ends the session.
  predicate Ends(c: Core, e: Event, st: Settings) {
    c.phase.WrapUp? && (e.PhaseCompleted? || (e.ResponseCompleted? && c.turns + 1 >= st.maxTurnsPerPhase))
  }

  // The two counters of an event: a frustrated turn counts once, and so does a tool that failed.
  lemma CountersExact(c: Core, e: Event, st: Settings)
    requires c.call.Some?
    ensures var r, d := c.call.value, Apply(c, e, st).core;
      && d.call.Some?
      && d.call.value.frustration == r.frustration + (if e.CallerFrustrated? then 1 else 0)
      && d.call.value.toolFailures == r.toolFailures + (if e.ToolFailed? then 1 else 0)
  {
    hide ToolList, NextPhase;
  }

  // An escalation starts exactly when a check, made after a frustrated turn and after every tool but
  // escalate_to_agent, finds the record unclaimed and one of its counters at its limit.
  lemma EscalationStartsExactly(c: Core, e: Event, st: Settings)
    ensures Apply(c, e, st).signal.EscalationStarted? <==>
      && (e.CallerFrustrated? || ((e.ToolSucceeded? || e.ToolFailed?) && !e.tool.EscalateToAgent?))
      && c.call.Some? && !c.call.value.escalated
      && (|| c.call.value.frustration + (if e.CallerFrustrated? then 1 else 0) >= st.frustrationLimit
          || c.call.value.toolFailures + (if e.ToolFailed? then 1 else 0) >= st.toolFailureLimit)
  {
    hide ToolList, NextPhase;
  }

  // State and cause of the record after every event.
  lemma RecordChangesExactly(c: Core, e: Event, st: Settings)
    requires c.call.Some?
    ensures var o := Apply(c, e, st);
      && o.core.call.Some?
      && (var r, t := c.call.value, o.core.call.value;
          if Ends(c, e, st) || e.HungUp? then t.state == Ended && t.hangupCause == Some("normal")
          else if e.ReferAccepted? || e == ToolSucceeded(EscalateToAgent, true)
          then t.state == Transferring && t.hangupCause == Some("transferred")
          else if o.signal.EscalationStarted? then t.state == Transferring && t.hangupCause == Some("escalated")
          else t.state == r.state && t.hangupCause == r.hangupCause)
  {
    hide ToolList, NextPhase, OverLimit;
  }

  // The event advances the conversation: a phase_complete, or the response that reaches the turn limit.
  predicate Advances(c: Core, e: Event, st: Settings) {
    var limit := match c.phase case Triage => 2 case Diagnose => 4 case _ => st.maxTurnsPerPhase;
    e.PhaseCompleted? || (e.ResponseCompleted? && c.turns + 1 >= limit)
  }

  // The event enters a phase, if only the same again.
  predicate Relocates(c: Core, e: Event, st: Settings) {
    (Advances(c, e, st) && !c.phase.WrapUp?) || (e.NewIssue? && !c.phase.Triage?) || e.Reconnect?
  }

  lemma AdvanceExact(c: Core)
    ensures var d := Advance(c).core;
      && d.phase == Following(c.phase, IsKnown(c.call))
      && d.turns == (if c.phase.WrapUp? then c.turns else 0)
      && d.call.Some? == c.call.Some?
      && (c.call.Some? ==> d.call.value.phase == if c.phase.WrapUp? then c.call.value.phase else d.phase)
  {
    hide ToolList;
  }

  lemma SameCallerCounted(c: Core)
    ensures Note(c.(turns := c.turns + 1), Turn).call == c.call
  {
  }

  // Phase, turn count and stored phase after every event.
  lemma PhaseChangesExactly(c: Core, e: Event, st: Settings)
    ensures var d := Apply(c, e, st).core;
      && d.phase == (if Advances(c, e, st) then Following(c.phase, IsKnown(c.call))
                     else if e.NewIssue? then Triage else c.phase)
      && d.turns == (if Relocates(c, e, st) then 0 else if e.ResponseCompleted? then c.turns + 1 else c.turns)
      && d.call.Some? == c.call.Some?
      && (c.call.Some? ==> d.call.value.phase == if Relocates(c, e, st) then d.phase else c.call.value.phase)
  {
    hide ToolList, OverLimit, Advance, Following, IsKnown;
    AdvanceExact(Note(c.(turns := c.turns + 1), Turn));
    if e.PhaseCompleted? {
      AdvanceExact(SetCategory(c, e.category));
      SameCaller(c, e.category);
    }
    SameCallerCounted(c);
  }

  // The category after every event: that of a phase_complete naming one of the six in stored TRIAGE, whatever
  // was recorded before, and otherwise what it was.
  lemma CategoryChangesExactly(c: Core, e: Event, st: Settings)
    ensures CategoryOf(Apply(c, e, st).core.call) ==
      if e.PhaseCompleted? && c.call.Some? && c.call.value.phase.Triage?
         && e.category in {Some("technical_support"), Some("billing"), Some("sales"), Some("move_transfer"),
                           Some("appointment"), Some("account")}
      then e.category else CategoryOf(c.call)
  {
    hide ToolList, OverLimit, NextPhase;
  }

  // A named, valid category is recorded in TRIAGE whatever was recorded before.
  lemma CategoryIsRecorded(c: Core, category: string, st: Settings)
    requires c.call.Some? && c.call.value.phase.Triage?
    requires category in {"technical_support", "billing", "sales", "move_transfer", "appointment", "account"}
    ensures CategoryOf(Apply(c, PhaseCompleted(Some(category)), st).core.call) == Some(category)
  {
    hide ToolList;
  }

  // ---- ENDED is not final ----

  // The record with the counts an event adds, which is what the escalation check reads.
  function Counted(r: CallRecord, e: Event): CallRecord {
    match e
    case CallerFrustrated => r.(frustration := r.frustration + 1)
    case ToolFailed(tool) => r.(toolFailures := r.toolFailures + 1)
    case _ => r
  }

  // The events after which the escalation check is made.
  predicate ChecksEscalation(e: Event) {
    e.CallerFrustrated? || ((e.ToolSucceeded? || e.ToolFailed?) && !e.tool.EscalateToAgent?)
  }

  // A record marked ENDED is reopened, as TRANSFERRING, exactly by an accepted REFER, or by a check that
  // finds it not yet escalated and over a limit.
  lemma EndedReopensByTransfer(c: Core, e: Event, st: Settings)
    requires c.call.Some? && c.call.value.state == Ended
    ensures var d := Apply(c, e, st).core;
      var reopened :=
        || e.ReferAccepted? || e == ToolSucceeded(EscalateToAgent, true)
        || (ChecksEscalation(e) && !c.call.value.escalated && OverLimit(Counted(c.call.value, e), st));
      && d.call.Some?
      && d.call.value.state == (if reopened then Transferring else Ended)
  {
    hide ToolList, NextPhase;
  }

  // ---- The start of a session ----

  ghost predicate Healthy(c: Core, st: Settings) {
    && Agrees(c) && PhaseSafe(c) && WithinBudget(c, st) && VisitTracked(c) && EscalatedOnce(c, st)
  }

  lemma StartIsHealthy(call: Option<CallRecord>, st: Settings)
    requires IsNewCall(call)
    ensures Healthy(Start(call), st) && OncePerVisit(Start(call).history)
  {
    LaterValues(st);
    var c := Start(call);
    assert c.history == [] + [Entered(Greeting)];
    SinceEntrySnoc([], Entered(Greeting));
  }

  lemma StepKeepsHealth(c: Core, e: Event, st: Settings)
    requires Healthy(c, st)
    ensures Healthy(Apply(c, e, st).core, st)
  {
    hide ToolList, Apply;
    StepKeepsAgreement(c, e, st);
    StepKeepsSafety(c, e, st);
    StepKeepsBudget(c, e, st);
    StepKeepsTracking(c, e, st);
    StepKeepsEscalation(c, e, st);
  }
}
