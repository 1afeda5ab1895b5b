// What a session does for its caller and its model over whole runs: every call of a tool is taken up and
// answered, the counters count, the classification takes effect.
module SessionEffects {
  import opened Models
  import opened ToolCatalog
  import opened PhaseMachine
  import opened SessionProtocol
  import opened ProtocolSafety
  import opened SessionTheorems

  // How many of the actions, up to action n, are of a kind.
  ghost function Occurrences(states: seq<State>, actions: seq<Action>, n: nat, kind: (State, Action) -> bool): nat
    requires n <= |actions| < |states|
  {
    if n == 0 then 0
    else Occurrences(states, actions, n - 1, kind) + (if kind(states[n - 1], actions[n - 1]) then 1 else 0)
  }

  predicate Hears(s: State, a: Action, m: Inbound) {
    a.Receive? && s.shared.inbox != [] && s.shared.inbox[0] == m
  }

  // ---- Every function call gets a handler ----

  predicate HearsCall(s: State, a: Action) {
    a.Receive? && s.shared.inbox != [] && s.shared.inbox[0].FunctionCall?
  }

  lemma StepSpawns(s: State, a: Action, st: Settings)
    requires Step(s, a, st).Some?
    ensures var s' := Step(s, a, st).value;
      if HearsCall(s, a)
      then
        && |s'.handlers| == |s.handlers| + 1
        && s'.handlers[|s.handlers|] ==
             Handler(s.shared.inbox[0].tool, s.shared.inbox[0].category, false, AwaitLock)
      else |s'.handlers| == |s.handlers|
  {
    hide Apply, DispatchAllowed, Received, Resumed, Released, Proceeded, Dispatched, Referred, ServerStep, Overruled;
  }

  // In every run there is one handler for each function call heard.
  lemma {:induction false} CallsGetHandlers(call: Option<CallRecord>, states: seq<State>, actions: seq<Action>,
                                            st: Settings, n: nat)
    requires IsRun(call, states, actions, st) && n <= |actions|
    ensures |states[n].handlers| == Occurrences(states, actions, n, HearsCall)
    decreases n
  {
    hide Step;
    if n == 0 {
      NoHandlersYet(call);
    } else {
      CallsGetHandlers(call, states, actions, st, n - 1);
      assert Step(states[n - 1], actions[n - 1], st) == Some(states[n]);
      StepSpawns(states[n - 1], actions[n - 1], st);
    }
  }

  lemma NoHandlersYet(call: Option<CallRecord>)
    ensures Init(call).handlers == []
  {
  }

  // ---- A handler that ends has answered ----

  // The handler writes its function_call_output.
  predicate WritesOutput(s: State, a: Action, i: nat) {
    a.Resume? && a.who == Task(i) && i < |s.handlers| && s.handlers[i].pc.SendOutput?
  }

  ghost predicate OutputWritten(states: seq<State>, actions: seq<Action>, n: nat, i: nat)
    requires n <= |actions| < |states|
  {
    exists k: nat :: k < n && WritesOutput(states[k], actions[k], i)
  }

  // What may end a handler without an answer: its arguments, an escalation of its own, or handing over.
  predicate EndsUnanswered(s: State, a: Action, i: nat) {
    || a == HandlerDies(i)
    || (a.ReferReturns? && a.who == Task(i))
    || (a == DispatchReturns(i, true) && i < |s.handlers| && s.handlers[i].tool.EscalateToAgent?)
  }

  ghost predicate Unanswered(states: seq<State>, actions: seq<Action>, n: nat, i: nat)
    requires n <= |actions| < |states|
  {
    exists k: nat :: k < n && EndsUnanswered(states[k], actions[k], i)
  }

  // Where a handler is once its output is written, and where after an end without one.
  predicate MayHaveWritten(pc: Pc) { pc.SendCreate? || pc.Done? }

  // How one step of the handler gets it there.
  lemma StepAnswers(s: State, a: Action, st: Settings, i: nat)
    requires Step(s, a, st).Some? && i < |Step(s, a, st).value.handlers|
    ensures var pc' := Step(s, a, st).value.handlers[i].pc;
      && (MayHaveWritten(pc') ==>
            || (i < |s.handlers| && MayHaveWritten(s.handlers[i].pc))
            || WritesOutput(s, a, i) || EndsUnanswered(s, a, i) || (i < |s.handlers|
              && s.handlers[i].pc == Closing(false)))
      && (pc' == Closing(false) ==>
            (i < |s.handlers| && s.handlers[i].pc == Closing(false)) || EndsUnanswered(s, a, i))
      && (WritesOutput(s, a, i) ==> pc' == (if s.handlers[i].tool.WaitForUser? then Done else SendCreate(a.d)))
  {
    hide Apply, DispatchAllowed, Received, Proceeded, OthersStay;
    StepMoves(s, a, st);
    assert OthersStay(s, Step(s, a, st).value, a);
    if Actor(a) != Some(Task(i)) {
      OtherHandlerStays(s, Step(s, a, st).value, a, i);
    } else if a.Proceed? {
      ProceededGoesOn(s.shared, s.handlers[i], st);
    }
  }

  lemma OtherHandlerStays(s: State, s': State, a: Action, i: nat)
    requires OthersStay(s, s', a) && Actor(a) != Some(Task(i)) && i < |s'.handlers|
    ensures if i < |s.handlers| then s'.handlers[i] == s.handlers[i] else s'.handlers[i].pc.AwaitLock?
  {
  }

  // In every run, a handler that has ended, or is sending its response.create, has written its output,
  // unless its arguments killed it or an escalation took its place. The output of wait_for_user ends its
  // handler; after every other output a response.create is sent (StepAnswers).
  lemma {:induction false} EveryCallIsAnswered(call: Option<CallRecord>, states: seq<State>, actions: seq<Action>,
                                               st: Settings, n: nat, i: nat)
    requires IsRun(call, states, actions, st) && n <= |actions| && i < |states[n].handlers|
    ensures MayHaveWritten(states[n].handlers[i].pc) ==>
      OutputWritten(states, actions, n, i) || Unanswered(states, actions, n, i)
    ensures states[n].handlers[i].pc == Closing(false) ==> Unanswered(states, actions, n, i)
    decreases n
  {
    hide Step, WritesOutput, EndsUnanswered, MayHaveWritten;
    if n == 0 {
      NoHandlersYet(call);
    } else {
      assert Step(states[n - 1], actions[n - 1], st) == Some(states[n]);
      StepAnswers(states[n - 1], actions[n - 1], st, i);
      if i < |states[n - 1].handlers| {
        EveryCallIsAnswered(call, states, actions, st, n - 1, i);
      }
    }
  }

  // ---- A dispatch is retried once ----

  // The handler may still be dispatched for the first time, or be waiting for that dispatch.
  predicate NotRetried(pc: Pc) {
    pc.AwaitLock? || pc.AwaitGate? || pc.Woken? || (pc.Dispatching? && !pc.retried)
  }

  function RetriesOf(i: nat): (State, Action) -> bool {
    (s: State, a: Action) => a == Retry(i)
  }

  lemma StepRetries(s: State, a: Action, st: Settings, i: nat)
    requires Step(s, a, st).Some? && i < |s.handlers|
    ensures var h, h' := s.handlers[i], Step(s, a, st).value.handlers[i];
      && (a == Retry(i) ==> NotRetried(h.pc) && !NotRetried(h'.pc))
      && (NotRetried(h'.pc) ==> NotRetried(h.pc))
  {
    hide Apply, DispatchAllowed, Received, Resumed, Proceeded, Dispatched, Referred, Released, OthersStay, ServerStep,
      NotRetried;
    StepMoves(s, a, st);
    if Actor(a) != Some(Task(i)) {
      OtherHandlerStays(s, Step(s, a, st).value, a, i);
    } else {
      TaskRetries(s, a, st, i);
    }
  }

  lemma TaskRetries(s: State, a: Action, st: Settings, i: nat)
    requires Step(s, a, st).Some? && i < |s.handlers| && Actor(a) == Some(Task(i))
    ensures NotRetried(Step(s, a, st).value.handlers[i].pc) ==> NotRetried(s.handlers[i].pc)
    ensures a == Retry(i) ==> NotRetried(s.handlers[i].pc) && !NotRetried(Step(s, a, st).value.handlers[i].pc)
  {
    hide Apply, DispatchAllowed;
  }

  // In every run a handler's dispatch is retried at most once (RetryNeedsHandler: one the guard let through).
  lemma {:induction false} RetriedOnce(call: Option<CallRecord>, states: seq<State>, actions: seq<Action>,
                                       st: Settings, n: nat, i: nat)
    requires IsRun(call, states, actions, st) && n <= |actions|
    ensures Occurrences(states, actions, n, RetriesOf(i)) <= 1
    ensures i >= |states[n].handlers| || NotRetried(states[n].handlers[i].pc) ==>
      Occurrences(states, actions, n, RetriesOf(i)) == 0
    decreases n
  {
    hide Step, NotRetried;
    if n > 0 {
      RetriedOnce(call, states, actions, st, n - 1, i);
      assert Step(states[n - 1], actions[n - 1], st) == Some(states[n]);
      HandlersStay(states[n - 1], actions[n - 1], st);
      if i < |states[n - 1].handlers| {
        StepRetries(states[n - 1], actions[n - 1], st, i);
      }
      if actions[n - 1] == Retry(i) {
        RetryNeedsHandler(states[n - 1], actions[n - 1], st, i);
      }
    }
  }

  lemma HandlersStay(s: State, a: Action, st: Settings)
    requires Step(s, a, st).Some?
    ensures |s.handlers| <= |Step(s, a, st).value.handlers|
  {
    hide Step;
    StepSpawns(s, a, st);
  }

  // Only a dispatch the guard let through is retried.
  lemma RetryNeedsHandler(s: State, a: Action, st: Settings, i: nat)
    requires Step(s, a, st).Some? && a == Retry(i)
    ensures i < |s.handlers| && s.handlers[i].pc == Dispatching(true, false)
  {
  }

  // ---- Who sends a response.create ----

  // The greeting, at the first word of the server that the session is ready.
  predicate Greets(s: State, a: Action) {
    Hears(s, a, SessionReady) && !s.shared.greeted
  }

  // A handler other than wait_for_user's, after its output; or an escalation, after its announcement.
  predicate Replies(s: State, a: Action) {
    && a.Resume? && Exists(s, a.who)
    && (|| PcOf(s, a.who).EscSay?
        || (a.who.Task? && PcOf(s, a.who).SendOutput? && !s.handlers[a.who.i].tool.WaitForUser?))
  }

  // The loop writes no output of a tool.
  predicate NotWriting(pc: Pc) { !pc.SendOutput? && pc != Closing(true) }

  lemma StepCreates(s: State, a: Action, st: Settings)
    requires Step(s, a, st).Some? && NotWriting(s.loop)
    ensures var s' := Step(s, a, st).value;
      && |s'.shared.creates| == |s.shared.creates| + (if Greets(s, a) || Replies(s, a) then 1 else 0)
      && (s'.shared.greeted <==> s.shared.greeted || Greets(s, a))
      && NotWriting(s'.loop)
  {
    hide Apply, DispatchAllowed, Proceeded, Received, Resumed, Dispatched, Referred, ServerStep, Released, NotWriting;
    LoopIsFree();
    if a.Receive? {
      ReceivedCreates(s.shared.(inbox := s.shared.inbox[1..]), s.shared.inbox[0], a.d, st);
    } else if a.Proceed? {
      ProceededCreates(s.shared, s.handlers[a.i], st);
    } else if a.Resume? {
      ResumedCreates(s.shared, PcOf(s, a.who), a.who.Loop?, SessionProtocol.Replies(s, a.who), a.d, st);
      WritingIsNone(s.loop);
    } else if a.Wake? {
      ReleasedCreates(s.shared, PcOf(s, a.who), st);
    } else if a.Timeout? {
      ReleasedCreates(s.shared.(ready := true), PcOf(s, a.who), st);
    } else if a.DispatchReturns? {
      DispatchedCreates(s.shared, s.handlers[a.i], a.ok, st);
    } else if a.ReferReturns? {
      ReferredCreates(s.shared, a.who.Loop?, a.ok, st);
    } else {
      ServerCreates(s.shared, a);
      LoopMayUpdate();
    }
  }

  lemma WritingIsNone(pc: Pc)
    ensures NotWriting(pc) ==> !pc.SendOutput?
  {
  }

  lemma LoopIsFree()
    ensures NotWriting(Done)
  {
  }

  lemma LoopMayUpdate()
    ensures NotWriting(SendUpdate)
  {
  }

  lemma ResumedCreates(g: Shared, pc: Pc, isLoop: bool, replies: bool, d: Delivery, st: Settings)
    ensures var t := Resumed(g, pc, isLoop, replies, d, st); t.Some? ==>
      && |t.value.shared.creates| == |g.creates| + (if pc.EscSay? || (pc.SendOutput? && replies) then 1 else 0)
      && t.value.shared.greeted == g.greeted
      && (isLoop && NotWriting(pc) ==> NotWriting(t.value.pc))
  {
    hide Apply;
  }

  lemma ReleasedCreates(g: Shared, pc: Pc, st: Settings)
    ensures var t := Released(g, pc, st); t.Some? ==>
      t.value.shared.creates == g.creates && t.value.shared.greeted == g.greeted && NotWriting(t.value.pc)
  {
    hide Apply;
  }

  lemma DispatchedCreates(g: Shared, h: Handler, ok: bool, st: Settings)
    requires h.pc.Dispatching?
    ensures var t := Dispatched(g, h, ok, st).shared; t.creates == g.creates && t.greeted == g.greeted
  {
    hide Apply;
  }

  lemma ReferredCreates(g: Shared, isLoop: bool, ok: bool, st: Settings)
    ensures var t := Referred(g, isLoop, ok, st);
      t.shared.creates == g.creates && t.shared.greeted == g.greeted && NotWriting(t.pc)
  {
    hide Apply;
  }

  lemma ServerCreates(g: Shared, a: Action)
    ensures var t := ServerStep(g, a); t.Some? ==> t.value.creates == g.creates && t.value.greeted == g.greeted
  {
  }

  lemma ReceivedCreates(g: Shared, m: Inbound, d: Delivery, st: Settings)
    ensures var t := Received(g, m, d, st);
      && |t.shared.creates| == |g.creates| + (if m.SessionReady? && !g.greeted then 1 else 0)
      && (t.shared.greeted <==> g.greeted || m.SessionReady?)
      && NotWriting(t.pc)
  {
    hide Apply;
  }

  lemma ProceededCreates(g: Shared, h: Handler, st: Settings)
    ensures var t := Proceeded(g, h, st).shared; t.creates == g.creates && t.greeted == g.greeted
  {
    hide Apply, DispatchAllowed;
  }

  // In every run the response.creates are one greeting, if the server was ever ready, and one for each
  // output of a handler other than wait_for_user's and each announcement of an escalation.
  lemma {:induction false} CreatesExact(call: Option<CallRecord>, states: seq<State>, actions: seq<Action>,
                                        st: Settings, n: nat)
    requires IsRun(call, states, actions, st) && n <= |actions|
    ensures |states[n].shared.creates| ==
      (if states[n].shared.greeted then 1 else 0) + Occurrences(states, actions, n, Replies)
    ensures states[n].shared.greeted <==> exists k: nat :: k < n && Hears(states[k], actions[k], SessionReady)
    ensures NotWriting(states[n].loop)
    decreases n
  {
    hide Step, Hears;
    if n > 0 {
      CreatesExact(call, states, actions, st, n - 1);
      assert Step(states[n - 1], actions[n - 1], st) == Some(states[n]);
      StepCreates(states[n - 1], actions[n - 1], st);
      GreetsOrReplies(states[n - 1], actions[n - 1]);
    }
  }

  lemma GreetsOrReplies(s: State, a: Action)
    ensures !(Greets(s, a) && Replies(s, a))
  {
  }

  // ---- What a task does next ----

  predicate EntersPhase(c: Core, d: Core) {
    |d.history| > |c.history| && d.history[|d.history| - 1].Entered?
  }

  predicate StartsEscalation(c: Core, d: Core) {
    |d.history| > |c.history| && d.history[|d.history| - 1].Escalated?
  }

  lemma SignalsExact(c: Core, e: Event, st: Settings)
    ensures var t := Apply(c, e, st);
      && (t.signal.PhaseEntered? <==> EntersPhase(c, t.core))
      && (t.signal.EscalationStarted? <==> StartsEscalation(c, t.core))
      && (t.signal.EscalationStarted? ==> e.CallerFrustrated? || e.ToolSucceeded? || e.ToolFailed?)
      && (t.signal.PhaseEntered? ==> e.ResponseCompleted? || e.PhaseCompleted? || e.NewIssue? || e.Reconnect?)
      && (t.signal.SessionEnded? <==>
            || (e.PhaseCompleted? && c.phase.WrapUp?)
            || (e.ResponseCompleted? && c.phase.WrapUp? && c.turns + 1 >= st.maxTurnsPerPhase))
  {
    hide ToolList, OverLimit;
  }

  // The acting task closes the session.
  predicate CallsClose(s: State, a: Action, st: Settings) {
    || HearsEnd(s, a, st)
    || (a.DispatchReturns? && a.ok && a.i < |s.handlers| && s.handlers[a.i].tool.EscalateToAgent?)
    || (!s.shared.over && (CompletesEnd(s, a) || (a.ReferReturns? && a.ok)))
  }

  // Where a task's step leaves it: before the session.update exactly if the step entered a phase, before the
  // announcement of an escalation exactly if it started one, or past it when the session is over, and
  // before the return of close() exactly if it closes the session.
  predicate GoesOn(s: State, c: Core, pc: Pc, a: Action, st: Settings) {
    && (pc.SendUpdate? <==> EntersPhase(s.shared.core, c))
    && (pc.EscSay? <==> StartsEscalation(s.shared.core, c) && !s.shared.over)
    && (pc.EscSilent? <==> StartsEscalation(s.shared.core, c) && s.shared.over)
    && (pc.Closing? <==> CallsClose(s, a, st))
    && (pc == Closing(true) <==> CompletesEnd(s, a) && !s.shared.over)
  }

  // For every step of a task, in every state.
  lemma TaskGoesOn(s: State, a: Action, st: Settings)
    requires Step(s, a, st).Some? && Actor(a).Some?
    ensures Exists(Step(s, a, st).value, Actor(a).value)
    ensures GoesOn(s, Step(s, a, st).value.shared.core, PcOf(Step(s, a, st).value, Actor(a).value), a, st)
  {
    hide Apply, DispatchAllowed, Received, Resumed, Proceeded, Dispatched, Referred, Released, ServerStep, Overruled,
      GoesOn;
    match a
    case Receive(d) => ReceivedGoesOn(s, d, st);
    case Proceed(i) => HandlerGoesOn(s, i, st);
    case Resume(who, d) => ResumedGoesOn(s, who, d, st);
    case DispatchReturns(i, ok) => DispatchedGoesOn(s, i, ok, st);
    case ReferReturns(who, ok) => ReferredGoesOn(s, who, ok, st);
    case Wake(who) => ReleasedGoesOn(s, s.shared, who, a, st);
    case Timeout(who) => ReleasedGoesOn(s, s.shared.(ready := true), who, a, st);
    case Rejoin => RejoinGoesOn(s, st);
    case Acquire(i) => IdleGoesOn(s, AwaitGate, a, st);
    case HandlerDies(i) => IdleGoesOn(s, Done, a, st);
    case Retry(i) => IdleGoesOn(s, Dispatching(DispatchAllowed(s.shared.core, s.handlers[i].tool), true), a, st);
  }

  lemma NothingStarts(c: Core)
    ensures !EntersPhase(c, c) && !StartsEscalation(c, c)
  {
  }

  lemma ReceivedGoesOn(s: State, d: Delivery, st: Settings)
    requires ReceiveStep(s, d, st).Some?
    ensures var t := Received(s.shared.(inbox := s.shared.inbox[1..]), s.shared.inbox[0], d, st);
      GoesOn(s, t.shared.core, t.pc, Receive(d), st)
  {
    hide Apply, EntersPhase, StartsEscalation;
    NothingStarts(s.shared.core);
    if s.shared.inbox[0].ResponseDone? {
      SignalsExact(s.shared.core, ResponseCompleted, st);
    } else {
      SignalsExact(s.shared.core, CallerFrustrated, st);
    }
  }

  lemma HandlerGoesOn(s: State, i: nat, st: Settings)
    requires i < |s.handlers|
    ensures var t := Proceeded(s.shared, s.handlers[i], st); GoesOn(s, t.shared.core, t.pc, Proceed(i), st)
  {
    hide Apply, DispatchAllowed;
    SignalsExact(s.shared.core, PhaseCompleted(s.handlers[i].category), st);
    SignalsExact(s.shared.core, NewIssue, st);
    CompletionMoves(s.shared.core, s.handlers[i].category, st);
  }

  lemma CompletionMoves(c: Core, category: Option<string>, st: Settings)
    ensures var t := Apply(c, PhaseCompleted(category), st);
      t.signal == (if c.phase.WrapUp? then SessionEnded else PhaseEntered)
  {
    hide ToolList;
  }

  lemma ResumedGoesOn(s: State, who: Who, d: Delivery, st: Settings)
    requires Exists(s, who)
    requires Resumed(s.shared, PcOf(s, who), who.Loop?, SessionProtocol.Replies(s, who), d, st).Some?
    ensures var t := Resumed(s.shared, PcOf(s, who), who.Loop?, SessionProtocol.Replies(s, who), d, st).value;
      GoesOn(s, t.shared.core, t.pc, Resume(who, d), st)
  {
    hide Apply, EntersPhase, StartsEscalation;
    NothingStarts(s.shared.core);
    SignalsExact(s.shared.core, AutoReferIssued, st);
  }

  lemma DispatchedGoesOn(s: State, i: nat, ok: bool, st: Settings)
    requires i < |s.handlers| && s.handlers[i].pc.Dispatching?
    ensures var t := Dispatched(s.shared, s.handlers[i], ok, st);
      GoesOn(s, t.shared.core, t.pc, DispatchReturns(i, ok), st)
  {
    hide Apply;
    var h := s.handlers[i];
    SignalsExact(s.shared.core, ToolEvent(h, ok), st);
    AgentStaysQuiet(s.shared.core, h, ok, st);
  }

  lemma AgentStaysQuiet(c: Core, h: Handler, ok: bool, st: Settings)
    requires h.pc.Dispatching?
    ensures h.tool.EscalateToAgent? ==> Apply(c, ToolEvent(h, ok), st).signal.Quiet?
  {
  }

  lemma ReferredGoesOn(s: State, who: Who, ok: bool, st: Settings)
    ensures var t := Referred(s.shared, who.Loop?, ok, st); GoesOn(s, t.shared.core, t.pc, ReferReturns(who, ok), st)
  {
    hide Apply;
    SignalsExact(s.shared.core, ReferAccepted, st);
  }

  lemma ReleasedGoesOn(s: State, g: Shared, who: Who, a: Action, st: Settings)
    requires Exists(s, who) && g.core == s.shared.core && (a == Wake(who) || a == Timeout(who))
    requires Released(g, PcOf(s, who), st).Some?
    ensures var t := Released(g, PcOf(s, who), st).value; GoesOn(s, t.shared.core, t.pc, a, st)
  {
    hide Apply;
    SignalsExact(s.shared.core, AutoReferIssued, st);
  }

  lemma RejoinGoesOn(s: State, st: Settings)
    ensures GoesOn(s, Apply(s.shared.core, PhaseMachine.Reconnect, st).core, SendUpdate, Rejoin, st)
  {
    hide ToolList;
  }

  lemma IdleGoesOn(s: State, pc: Pc, a: Action, st: Settings)
    requires a.Acquire? || a.HandlerDies? || a.Retry?
    requires pc.AwaitGate? || pc.Done? || pc.Dispatching?
    ensures GoesOn(s, s.shared.core, pc, a, st)
  {
  }

  // A write of a response.create raised, and its send returns.
  predicate CreateFailed(s: State, a: Action) {
    a.Resume? && Exists(s, a.who) && PcOf(s, a.who) in {SendCreate(Refused), EscCreate(Refused)}
  }

  // What opens and shuts the gate: it is shut by each response.create and each word of a response that has
  // begun, opened by the end of a response, a failed create or a timeout, and otherwise as it was.
  predicate GateMoves(s: State, ready: bool, a: Action) {
    ready == (
      if Greets(s, a) || Replies(s, a) || Hears(s, a, ResponseCreated) then false
      else s.shared.ready || Hears(s, a, ResponseDone) || CreateFailed(s, a) || a.Timeout?)
  }

  lemma GateExactly(s: State, a: Action, st: Settings)
    requires Step(s, a, st).Some? && NotWriting(s.loop)
    ensures GateMoves(s, Step(s, a, st).value.shared.ready, a)
  {
    hide Apply, DispatchAllowed, Received, Resumed, Proceeded, Dispatched, Referred, Released, ServerStep, GateMoves;
    match a
    case Receive(d) => ReceivedGate(s, d, st);
    case Resume(who, d) => ResumedGate(s, who, d, st);
    case Timeout(who) => ReleasedGate(s, s.shared.(ready := true), a, PcOf(s, who), st);
    case Wake(who) => ReleasedGate(s, s.shared, a, PcOf(s, who), st);
    case Proceed(i) => ProceededGate(s, i, st);
    case DispatchReturns(i, ok) => DispatchedGate(s, i, ok, st);
    case ReferReturns(who, ok) => ReferredGate(s, who, ok, st);
    case _ => ServerGate(s, a);
  }

  lemma ReceivedGate(s: State, d: Delivery, st: Settings)
    requires ReceiveStep(s, d, st).Some?
    ensures GateMoves(s, ReceiveStep(s, d, st).value.shared.ready, Receive(d))
  {
    hide Apply;
  }

  lemma ResumedGate(s: State, who: Who, d: Delivery, st: Settings)
    requires Exists(s, who) && NotWriting(s.loop)
    requires Resumed(s.shared, PcOf(s, who), who.Loop?, SessionProtocol.Replies(s, who), d, st).Some?
    ensures GateMoves(
      s, Resumed(s.shared, PcOf(s, who), who.Loop?, SessionProtocol.Replies(s, who), d, st).value.shared.ready,
      Resume(who, d))
  {
    hide Apply;
  }

  lemma ReleasedGate(s: State, g: Shared, a: Action, pc: Pc, st: Settings)
    requires Released(g, pc, st).Some?
    requires (a.Timeout? && g.ready) || (a.Wake? && g.ready == s.shared.ready)
    ensures GateMoves(s, Released(g, pc, st).value.shared.ready, a)
  {
    hide Apply;
  }

  lemma ProceededGate(s: State, i: nat, st: Settings)
    requires i < |s.handlers|
    ensures GateMoves(s, Proceeded(s.shared, s.handlers[i], st).shared.ready, Proceed(i))
  {
    hide Apply, DispatchAllowed;
  }

  lemma DispatchedGate(s: State, i: nat, ok: bool, st: Settings)
    requires i < |s.handlers| && s.handlers[i].pc.Dispatching?
    ensures GateMoves(s, Dispatched(s.shared, s.handlers[i], ok, st).shared.ready, DispatchReturns(i, ok))
  {
    hide Apply;
  }

  lemma ReferredGate(s: State, who: Who, ok: bool, st: Settings)
    ensures GateMoves(s, Referred(s.shared, who.Loop?, ok, st).shared.ready, ReferReturns(who, ok))
  {
    hide Apply;
  }

  lemma ServerGate(s: State, a: Action)
    requires !a.Receive? && !a.Resume? && !a.Timeout?
    ensures GateMoves(s, s.shared.ready, a)
    ensures ServerStep(s.shared, a).Some? ==> GateMoves(s, ServerStep(s.shared, a).value.ready, a)
  {
  }

  // Messages are handled in order, once each; those not handled when the connection is lost are lost.
  lemma InboxExactly(s: State, a: Action, st: Settings)
    requires Step(s, a, st).Some?
    ensures var before, after := s.shared.inbox, Step(s, a, st).value.shared.inbox;
      if a.Receive? then before != [] && after == before[1..]
      else if a.Disconnect? || a.EndConnection? || a == ReferReturns(Loop, false) then after == []
      else if !s.shared.connected then after == before
      else
        match a
        case ServerStarts | ServerStartsUnasked => after == before + [ResponseCreated]
        case ServerCalls(tool, category) => after == before + [FunctionCall(tool, category)]
        case ServerFinishes => after == before + [ResponseDone]
        case CallerSpeaks(frustrated) => after == before + [CallerTurn(frustrated)]
        case ServerReady => after == before + [SessionReady]
        case _ => after == before
  {
    hide Apply, DispatchAllowed, Received, Resumed, Proceeded, Released, Dispatched;
    var g := s.shared;
    match a
    case Receive(d) => ReceivedKeepsInbox(g.(inbox := g.inbox[1..]), g.inbox[0], d, st);
    case Proceed(i) => ProceededKeepsInbox(g, s.handlers[i], st);
    case Resume(who, d) => ResumedKeepsInbox(g, PcOf(s, who), who.Loop?, SessionProtocol.Replies(s, who), d, st);
    case _ => OthersKeepInbox(g, a, s, st);
  }

  lemma ReceivedKeepsInbox(g: Shared, m: Inbound, d: Delivery, st: Settings)
    ensures Received(g, m, d, st).shared.inbox == g.inbox
  {
    hide Apply;
  }

  lemma ProceededKeepsInbox(g: Shared, h: Handler, st: Settings)
    ensures Proceeded(g, h, st).shared.inbox == g.inbox
  {
    hide Apply, DispatchAllowed;
  }

  lemma ResumedKeepsInbox(g: Shared, pc: Pc, isLoop: bool, replies: bool, d: Delivery, st: Settings)
    requires Resumed(g, pc, isLoop, replies, d, st).Some?
    ensures Resumed(g, pc, isLoop, replies, d, st).value.shared.inbox == g.inbox
  {
    hide Apply;
  }

  lemma OthersKeepInbox(g: Shared, a: Action, s: State, st: Settings)
    requires Step(s, a, st).Some? && g == s.shared
    ensures a.DispatchReturns? || a.Wake? || a.Timeout? ==> Step(s, a, st).value.shared.inbox == g.inbox
  {
    hide Apply, DispatchAllowed, Received, Resumed, Proceeded, Referred, ServerStep, Overruled;
  }

  // When the session ends, and while it lasts when it is connected.
  lemma OverExactly(s: State, a: Action, st: Settings)
    requires Step(s, a, st).Some?
    ensures var s' := Step(s, a, st).value;
      var lost := a.Disconnect? || a.EndConnection? || a == ReferReturns(Loop, false);
      && (s'.shared.over <==>
            s.shared.over || a.EndConnection? || (a.Disconnect? && s.shared.closing) || a == ReferReturns(Loop, false))
      && (s'.shared.connected <==> a.Rejoin? || (s.shared.connected && !lost))
      && (a.Rejoin? ==> !s.shared.connected && !s.shared.over)
  {
    hide Apply, DispatchAllowed, Received, Resumed, Proceeded, Released, Dispatched;
    var g := s.shared;
    match a
    case Receive(d) => ReceivedKeepsOver(g.(inbox := g.inbox[1..]), g.inbox[0], d, st);
      ReceivedKeepsConnection(g.(inbox := g.inbox[1..]), g.inbox[0], d, st);
    case Proceed(i) => ProceededKeepsOver(g, s.handlers[i], st);
      ProceededKeepsConnection(g, s.handlers[i], st);
    case Resume(who, d) =>
      ResumedKeepsOver(g, PcOf(s, who), who.Loop?, SessionProtocol.Replies(s, who), d, st);
      ResumedKeepsConnection(g, PcOf(s, who), who.Loop?, SessionProtocol.Replies(s, who), d, st);
    case _ => OthersKeepConnection(g, a, s, st);
  }

  lemma ReceivedKeepsConnection(g: Shared, m: Inbound, d: Delivery, st: Settings)
    ensures Received(g, m, d, st).shared.connected == g.connected
  {
    hide Apply;
  }

  lemma ProceededKeepsConnection(g: Shared, h: Handler, st: Settings)
    ensures Proceeded(g, h, st).shared.connected == g.connected
  {
    hide Apply, DispatchAllowed;
  }

  lemma ResumedKeepsConnection(g: Shared, pc: Pc, isLoop: bool, replies: bool, d: Delivery, st: Settings)
    requires Resumed(g, pc, isLoop, replies, d, st).Some?
    ensures Resumed(g, pc, isLoop, replies, d, st).value.shared.connected == g.connected
  {
    hide Apply;
  }

  lemma OthersKeepConnection(g: Shared, a: Action, s: State, st: Settings)
    requires Step(s, a, st).Some? && g == s.shared
    ensures a.DispatchReturns? ==>
      var t := Step(s, a, st).value.shared; t.over == g.over && t.connected == g.connected
    ensures a.Wake? || a.Timeout? ==>
      var t := Step(s, a, st).value.shared; t.over == g.over && t.connected == g.connected
  {
    hide Apply, DispatchAllowed, Received, Resumed, Proceeded, Referred, ServerStep, Overruled;
  }

  // ---- The counters ----

  predicate HearsFrustration(s: State, a: Action) {
    Hears(s, a, CallerTurn(true))
  }

  predicate ToolFails(s: State, a: Action) {
    a.DispatchReturns? && !a.ok
  }

  lemma StepCounts(s: State, a: Action, st: Settings)
    requires Step(s, a, st).Some? && s.shared.core.call.Some?
    ensures var r, c := s.shared.core.call.value, Step(s, a, st).value.shared.core;
      && c.call.Some?
      && c.call.value.frustration == r.frustration + (if HearsFrustration(s, a) then 1 else 0)
      && c.call.value.toolFailures == r.toolFailures + (if ToolFails(s, a) then 1 else 0)
  {
    hide Apply, Step;
    StepIsEvent(s, a, st);
    if EventOf(s, a).Some? {
      CountersExact(s.shared.core, EventOf(s, a).value, st);
    }
    StepEvents(s, a, st);
  }

  lemma StepEvents(s: State, a: Action, st: Settings)
    requires Step(s, a, st).Some?
    ensures HearsFrustration(s, a) <==> EventOf(s, a) == Some(CallerFrustrated)
    ensures ToolFails(s, a) <==> EventOf(s, a).Some? && EventOf(s, a).value.ToolFailed?
  {
    hide Apply, DispatchAllowed, Received, Resumed, Released, Proceeded, Dispatched, Referred, ServerStep, Overruled;
  }

  // In every run the record has counted the frustrated turns heard and the tools that failed, all of them:
  // a success in between resets nothing.
  lemma {:induction false} CountersCount(call: Option<CallRecord>, states: seq<State>, actions: seq<Action>,
                                         st: Settings, n: nat)
    requires IsNewCall(call) && call.Some? && IsRun(call, states, actions, st) && n <= |actions|
    ensures var c := states[n].shared.core.call;
      && c.Some?
      && c.value.frustration == Occurrences(states, actions, n, HearsFrustration)
      && c.value.toolFailures == Occurrences(states, actions, n, ToolFails)
    decreases n
  {
    hide Step, ToolList, HearsFrustration, ToolFails;
    if n > 0 {
      CountersCount(call, states, actions, st, n - 1);
      assert Step(states[n - 1], actions[n - 1], st) == Some(states[n]);
      StepCounts(states[n - 1], actions[n - 1], st);
    }
  }

  // ---- Classification ----

  // In every run, when a phase_complete that names a service category gets past the gate in TRIAGE, the
  // record holds that category, whatever it held before, and the conversation goes to DIAGNOSE with exactly
  // that category's reading tools among the domain tools on offer.
  lemma ClassificationTakesEffect(call: Option<CallRecord>, states: seq<State>, actions: seq<Action>, st: Settings,
                                  i: nat, category: string)
    requires IsNewCall(call) && IsRun(call, states, actions, st) && call.Some?
    requires category in {"technical_support", "billing", "sales", "move_transfer", "appointment", "account"}
    requires var s := Final(states);
      && i < |s.handlers| && s.handlers[i].pc.Woken?
      && s.handlers[i].tool.PhaseComplete? && s.handlers[i].category == Some(category)
      && s.shared.core.phase.Triage?
    ensures Step(Final(states), Proceed(i), st).Some?
    ensures var c := Step(Final(states), Proceed(i), st).value.shared.core;
      && c.call.Some? && c.call.value.category == Some(category)
      && c.phase.Diagnose? && c.call.value.phase.Diagnose?
      && forall tool :: Home(tool).Some? ==> (tool in c.offered <==> Home(tool).value == category && !IsAction(tool))
  {
    hide Apply, DispatchAllowed, ToolList, IsOffered;
    var s := Final(states);
    RecordStays(call, states, actions, st, |actions|);
    PhaseStoreAndOfferAgree(call, states, actions, st);
    StepIsEvent(s, Proceed(i), st);
    CategoryIsRecorded(s.shared.core, category, st);
    StepKeepsAgreement(s.shared.core, PhaseCompleted(Some(category)), st);
    TriageIsLeft(s.shared.core, category, st);
    var c := Step(s, Proceed(i), st).value.shared.core;
    forall tool | Home(tool).Some?
      ensures tool in c.offered <==> Home(tool).value == category && !IsAction(tool)
    {
      ToolListIsOffer(c.phase, CategoryOf(c.call));
      DiagnoseOffer(tool, category);
    }
  }

  lemma TriageIsLeft(c: Core, category: string, st: Settings)
    requires c.phase.Triage? && c.call.Some?
    ensures Apply(c, PhaseCompleted(Some(category)), st).core.phase.Diagnose?
    ensures Apply(c, PhaseCompleted(Some(category)), st).core.call.Some?
  {
    hide ToolList;
  }

  lemma DiagnoseOffer(tool: Tool, category: string)
    requires Home(tool).Some? && category != ""
    ensures IsOffered(tool, Diagnose, Some(category)) <==> Home(tool).value == category && !IsAction(tool)
  {
  }
}
