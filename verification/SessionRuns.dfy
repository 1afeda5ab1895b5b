// Runs that show where the session's guarantees end, each built action by action.
module SessionRuns {
  import opened Models
  import opened ToolCatalog
  import opened PhaseMachine
  import opened SessionProtocol
  import opened SessionTheorems
  import opened SessionSegments

  // A run one action longer.
  lemma Then(call: Option<CallRecord>, states: seq<State>, actions: seq<Action>, a: Action, st: Settings)
      returns (states': seq<State>, actions': seq<Action>)
    requires IsRun(call, states, actions, st) && Step(Final(states), a, st).Some?
    ensures IsRun(call, states', actions', st) && actions' == actions + [a]
    ensures states' == states + [Step(Final(states), a, st).value] && Final(states') == states'[|states|]
  {
    hide Step;
    states', actions' := states + [Step(Final(states), a, st).value], actions + [a];
  }

  lemma Opening(call: Option<CallRecord>, st: Settings) returns (states: seq<State>, actions: seq<Action>)
    ensures IsRun(call, states, actions, st) && actions == []
    ensures states != [] && Final(states) == Init(call)
  {
    states, actions := [Init(call)], [];
  }

  // ---- The greeting ----

  // No timeout, no unasked response, no caller turn, no reconnect.
  predicate Calls(a: Action) {
    !a.Timeout? && !a.ServerStartsUnasked? && !a.CallerSpeaks? && !a.Rejoin?
  }

  // The session is configured, and the loop is about to hear of it.
  lemma SessionIsReady(call: Option<CallRecord>, st: Settings)
      returns (states: seq<State>, actions: seq<Action>)
    ensures IsRun(call, states, actions, st) && states != []
    ensures Final(states) ==
      State(Shared(Start(call), true, false, false, true, false, [SessionReady], Resting, []), None, [], Done)
    ensures forall a :: a in actions ==> Calls(a)
  {
    hide ToolList, Start, IsRun, Apply, Released, Received, Proceeded, Dispatched, Referred, ReceiveStep, AcquireStep,
         Overruled;
    states, actions := Opening(call, st);
    states, actions := Then(call, states, actions, Resume(Loop, Delivered), st);
    states, actions := Then(call, states, actions, ServerReady, st);
  }

  predicate IsGreeting(s: State, call: Option<CallRecord>, server: Server, loop: Pc) {
    s == State(Shared(Start(call), false, true, false, true, false, [], server, [false]), None, [], loop)
  }

  lemma GreetingIsRequested(call: Option<CallRecord>, st: Settings)
      returns (states: seq<State>, actions: seq<Action>)
    ensures IsRun(call, states, actions, st) && states != []
    ensures IsGreeting(Final(states), call, Requested, SendCreate(Delivered))
    ensures forall a :: a in actions ==> Calls(a)
  {
    hide ToolList, Start, IsRun, Apply, Released, Proceeded, Dispatched, Referred, AcquireStep, Overruled;
    states, actions := SessionIsReady(call, st);
    states, actions := Then(call, states, actions, Receive(Delivered), st);
  }

  // The greeting is being spoken, and the loop has heard of it.
  lemma GreetingIsSpoken(call: Option<CallRecord>, st: Settings)
      returns (states: seq<State>, actions: seq<Action>)
    ensures IsRun(call, states, actions, st) && states != []
    ensures IsGreeting(Final(states), call, Responding, Done)
    ensures forall a :: a in actions ==> Calls(a)
  {
    hide ToolList, Start, IsRun, Apply, Released, Proceeded, Dispatched, Referred, AcquireStep, Overruled;
    states, actions := GreetingIsRequested(call, st);
    states, actions := Then(call, states, actions, Resume(Loop, Delivered), st);
    states, actions := Then(call, states, actions, ServerStarts, st);
    states, actions := Then(call, states, actions, Receive(Delivered), st);
  }

  // ---- A conversation under way ----

  // A response is being spoken, the loop has heard everything, and no handler is at work.
  ghost predicate Talking(s: State) {
    var g := s.shared;
    && s.loop.Done? && s.lock.None? && (forall h :: h in s.handlers ==> h.pc.Done?)
    && g.connected && !g.over && !g.closing && g.inbox == [] && g.server.Responding?
  }

  // The response completes below the turn limit, and the server starts another one.
  lemma TurnPasses(call: Option<CallRecord>, states: seq<State>, actions: seq<Action>, st: Settings)
      returns (states': seq<State>, actions': seq<Action>)
    requires IsRun(call, states, actions, st) && states != [] && Talking(Final(states))
    requires var c := Final(states).shared.core; c.turns + 1 < TurnLimit(c.phase, st)
    ensures IsRun(call, states', actions', st) && states' != [] && Talking(Final(states'))
    ensures var c := Final(states).shared.core; Final(states').shared.core == Note(c.(turns := c.turns + 1), Turn)
    ensures forall a :: a in actions' ==> a in actions || !a.Timeout?
  {
    hide ToolList, IsRun, Apply, Released, Proceeded, Resumed, Dispatched, Referred, AcquireStep, Overruled;
    TurnIsQuiet(Final(states).shared.core, st);
    states', actions' := Then(call, states, actions, ServerFinishes, st);
    states', actions' := Then(call, states', actions', Receive(Delivered), st);
    states', actions' := Then(call, states', actions', ServerStartsUnasked, st);
    states', actions' := Then(call, states', actions', Receive(Delivered), st);
  }

  lemma TurnIsQuiet(c: Core, st: Settings)
    requires c.turns + 1 < TurnLimit(c.phase, st)
    ensures Apply(c, ResponseCompleted, st) == Outcome(Note(c.(turns := c.turns + 1), Turn), Quiet)
  {
  }

  // Responses complete until one more reaches the phase's turn limit.
  lemma {:induction false} LastTurn(call: Option<CallRecord>, states: seq<State>, actions: seq<Action>, st: Settings)
      returns (states': seq<State>, actions': seq<Action>)
    requires IsRun(call, states, actions, st) && states != [] && Talking(Final(states))
    ensures IsRun(call, states', actions', st) && states' != [] && Talking(Final(states'))
    ensures var c, d := Final(states).shared.core, Final(states').shared.core;
      d.phase == c.phase && d.call == c.call && d.turns + 1 >= TurnLimit(d.phase, st)
    ensures forall a :: a in actions' ==> a in actions || !a.Timeout?
    decreases TurnLimit(Final(states).shared.core.phase, st) - Final(states).shared.core.turns
  {
    hide Talking, IsRun;
    states', actions' := states, actions;
    var c := Final(states).shared.core;
    if c.turns + 1 < TurnLimit(c.phase, st) {
      states', actions' := TurnPasses(call, states, actions, st);
      states', actions' := LastTurn(call, states', actions', st);
    }
  }

  // ---- A handler at work ----

  // The state with a new handler holding the lock.
  function Joined(s: State, tool: Tool, category: Option<string>, pc: Pc): State {
    var duplicate := IsOneCall(tool) && tool in s.shared.core.called;
    s.(lock := Some(|s.handlers|), handlers := s.handlers + [Handler(tool, category, duplicate, pc)])
  }

  lemma HandlerArrives(call: Option<CallRecord>, states: seq<State>, actions: seq<Action>,
                       tool: Tool, category: Option<string>, st: Settings)
      returns (states': seq<State>, actions': seq<Action>)
    requires IsRun(call, states, actions, st) && states != []
    requires var s := Final(states);
      && s.loop.Done? && s.shared.connected && !s.shared.over
      && s.shared.inbox == [] && s.shared.server.Responding?
    ensures IsRun(call, states', actions', st) && states' != []
    ensures var s := Final(states);
      Final(states') == s.(handlers := s.handlers + [Handler(tool, category, false, AwaitLock)])
    ensures forall a :: a in actions' ==> a in actions || Calls(a)
  {
    hide ToolList, IsRun, Apply, Released, Proceeded, Resumed, Dispatched, Referred, Overruled, AcquireStep;
    var s := Final(states);
    states', actions' := Then(call, states, actions, ServerCalls(tool, category), st);
    assert Final(states').shared == s.shared.(inbox := [FunctionCall(tool, category)]);
    states', actions' := Then(call, states', actions', Receive(Delivered), st);
    assert Final(states').shared == s.shared;
  }

  lemma HandlerIsAsked(call: Option<CallRecord>, states: seq<State>, actions: seq<Action>,
                       tool: Tool, category: Option<string>, st: Settings)
      returns (states': seq<State>, actions': seq<Action>)
    requires IsRun(call, states, actions, st) && states != [] && Talking(Final(states))
    ensures IsRun(call, states', actions', st) && states' != []
    ensures Final(states') == Joined(Final(states), tool, category, AwaitGate)
    ensures forall a :: a in actions' ==> a in actions || (!a.Timeout? && !a.ServerStartsUnasked? && !a.CallerSpeaks?)
  {
    hide ToolList, IsRun, Apply, Released, Proceeded, Resumed, Dispatched, Referred, Overruled, ReceiveStep, ServerStep;
    var s := Final(states);
    states', actions' := HandlerArrives(call, states, actions, tool, category, st);
    states', actions' := Then(call, states', actions', Acquire(|s.handlers|), st);
    assert Final(states').handlers == Joined(s, tool, category, AwaitGate).handlers;
  }

  // It stops waiting for the response to finish, and goes ahead.
  lemma HandlerGoesAhead(call: Option<CallRecord>, states: seq<State>, actions: seq<Action>,
                         tool: Tool, category: Option<string>, st: Settings)
      returns (states': seq<State>, actions': seq<Action>, woken: State)
    requires IsRun(call, states, actions, st) && states != [] && Talking(Final(states))
    ensures var s := Final(states);
      woken == Joined(s.(shared := s.shared.(ready := true)), tool, category, Woken)
    ensures IsRun(call, states', actions', st) && states' != []
    ensures var n := |Final(states).handlers|;
      && Final(states') == Commit(woken, Task(n), Proceeded(woken.shared, woken.handlers[n], st))
      && |actions'| >= 1 && actions'[|actions'| - 1] == Proceed(n)
      && |states'| >= 2 && states'[|states'| - 2] == woken
    ensures forall a :: a in actions' ==> a in actions || (!a.ServerStartsUnasked? && !a.CallerSpeaks?)
  {
    hide ToolList, Apply, Proceeded, Resumed, Dispatched, Referred, Overruled, ReceiveStep, AcquireStep, ServerStep;
    var s := Final(states);
    states', actions' := HandlerIsAsked(call, states, actions, tool, category, st);
    states', actions' := Then(call, states', actions', Timeout(Task(|s.handlers|)), st);
    woken := Joined(s.(shared := s.shared.(ready := true)), tool, category, Woken);
    assert Final(states').handlers == woken.handlers;
    assert Final(states') == woken;
    ghost var before := states';
    states', actions' := Then(call, states', actions', Proceed(|s.handlers|), st);
    assert states'[|before| - 1] == woken && |states'| == |before| + 1;
  }

  // The handler of a phase_complete advances the phase, while the response is still being spoken.
  lemma CompletionGoesAhead(call: Option<CallRecord>, states: seq<State>, actions: seq<Action>, st: Settings)
      returns (states': seq<State>, actions': seq<Action>)
    requires IsRun(call, states, actions, st) && states != [] && Talking(Final(states))
    requires !Final(states).shared.core.phase.WrapUp?
    ensures IsRun(call, states', actions', st) && states' != []
    ensures Answering(Final(states'), |Final(states).handlers|)
    ensures Final(states').handlers[|Final(states).handlers|].pc.SendUpdate?
    ensures Final(states').shared.core == Advance(Final(states).shared.core).core
    ensures Final(states').shared.creates == Final(states).shared.creates
    ensures forall a :: a in actions' ==> a in actions || (!a.ServerStartsUnasked? && !a.CallerSpeaks?)
  {
    hide ToolList, IsRun, Apply, Advance, Dispatched, Referred, Overruled, ReceiveStep, AcquireStep, ServerStep, Step;
    PlainCompletion(Final(states).shared.core, st);
    var woken: State;
    states', actions', woken := HandlerGoesAhead(call, states, actions, PhaseComplete, None, st);
  }

  lemma PhaseAdvances(call: Option<CallRecord>, states: seq<State>, actions: seq<Action>, st: Settings)
      returns (states': seq<State>, actions': seq<Action>)
    requires IsRun(call, states, actions, st) && states != [] && Talking(Final(states))
    requires !Final(states).shared.core.phase.WrapUp?
    ensures IsRun(call, states', actions', st) && states' != [] && Talking(Final(states'))
    ensures Final(states').shared.core == Advance(Final(states).shared.core).core
  {
    hide Talking, Answering, IsRun, Advance, Step;
    states', actions' := CompletionGoesAhead(call, states, actions, st);
    states', actions' := HandlerAnswers(call, states', actions', |Final(states).handlers|, st);
  }

  lemma PlainCompletion(c: Core, st: Settings)
    requires !c.phase.WrapUp?
    ensures Apply(c, PhaseCompleted(None), st) == Advance(c) && Advance(c).signal.PhaseEntered?
  {
    hide ToolList;
  }

  // A handler about to update the session or to send its output.
  ghost predicate Answering(s: State, n: nat) {
    var g := s.shared;
    && n + 1 == |s.handlers| && (s.handlers[n].pc.SendUpdate? || s.handlers[n].pc.SendOutput?)
    && !s.handlers[n].tool.WaitForUser?
    && s.loop.Done? && s.lock == Some(n) && (forall i :: 0 <= i < n ==> s.handlers[i].pc.Done?)
    && g.connected && !g.over && !g.closing && g.inbox == [] && g.server.Responding?
  }

  lemma HandlerAnswers(call: Option<CallRecord>, states: seq<State>, actions: seq<Action>, n: nat, st: Settings)
      returns (states': seq<State>, actions': seq<Action>)
    requires IsRun(call, states, actions, st) && states != [] && Answering(Final(states), n)
    ensures IsRun(call, states', actions', st) && states' != [] && Talking(Final(states'))
    ensures Final(states').shared.core == Final(states).shared.core
    ensures |Final(states').handlers| == n + 1
  {
    hide ToolList, IsRun, Apply, Released, Proceeded, Dispatched, Referred, Overruled, ReceiveStep, AcquireStep,
         ServerStep;
    states', actions' := states, actions;
    if Final(states).handlers[n].pc.SendUpdate? {
      states', actions' := Then(call, states', actions', Resume(Task(n), Delivered), st);
    }
    states', actions' := Then(call, states', actions', Resume(Task(n), Delivered), st);
    states', actions' := Then(call, states', actions', Resume(Task(n), Delivered), st);
  }

  // The conversation advances until it reaches a phase.
  lemma {:induction false} PhaseReached(call: Option<CallRecord>, states: seq<State>, actions: seq<Action>,
                                        phase: ConvPhase, st: Settings)
      returns (states': seq<State>, actions': seq<Action>)
    requires IsRun(call, states, actions, st) && states != [] && Talking(Final(states))
      && Calm(Final(states).shared.core)
    requires OrderIndex(Final(states).shared.core.phase) <= OrderIndex(phase)
    requires (phase.Verify? ==> !IsKnown(Final(states).shared.core.call)) && Final(states).shared.core.called == {}
    requires Final(states).shared.core.turns == 0
    ensures IsRun(call, states', actions', st) && states' != [] && Talking(Final(states'))
    ensures var c, d := Final(states).shared.core, Final(states').shared.core;
      && Calm(d) && d.phase == phase && d.call.Some? == c.call.Some? && IsKnown(d.call) == IsKnown(c.call)
      && d.called == {} && d.turns == 0
    decreases OrderIndex(phase) - OrderIndex(Final(states).shared.core.phase)
  {
    hide Talking, IsRun, ToolList, Calm, Advance;
    states', actions' := states, actions;
    var c := Final(states).shared.core;
    if c.phase != phase {
      AdvanceStaysCalm(c, phase);
      states', actions' := PhaseAdvances(call, states, actions, st);
      states', actions' := PhaseReached(call, states', actions', phase, st);
    }
  }

  // Nothing has been counted towards an escalation.
  predicate Calm(c: Core) {
    c.call.Some? ==> c.call.value.frustration == 0 && c.call.value.toolFailures == 0 && !c.call.value.escalated
  }

  lemma AdvanceStaysCalm(c: Core, phase: ConvPhase)
    requires Calm(c) && OrderIndex(c.phase) < OrderIndex(phase) && (phase.Verify? ==> !IsKnown(c.call))
    ensures var d := Advance(c).core;
      && Calm(d) && d.called == {} && d.turns == 0 && d.call.Some? == c.call.Some? && IsKnown(d.call) == IsKnown(c.call)
      && OrderIndex(c.phase) < OrderIndex(d.phase) <= OrderIndex(phase)
  {
    hide ToolList;
  }

  // From the greeting, any phase a caller can be in.
  lemma Reached(call: Option<CallRecord>, phase: ConvPhase, st: Settings)
      returns (states: seq<State>, actions: seq<Action>)
    requires IsNewCall(call) && (phase.Verify? ==> !IsKnown(call))
    ensures IsRun(call, states, actions, st) && states != [] && Talking(Final(states))
    ensures var d := Final(states).shared.core;
      && Calm(d) && d.phase == phase && d.called == {} && d.turns == 0
      && d.call.Some? == call.Some? && IsKnown(d.call) == IsKnown(call)
  {
    hide IsRun, Start;
    StartIsCalm(call);
    states, actions := GreetingIsSpoken(call, st);
    states, actions := PhaseReached(call, states, actions, phase, st);
  }

  // ---- Each assumption of the response gate is needed ----

  // A server that answers the caller unasked meets the greeting's response.create.
  lemma UnaskedResponsesBreakTheGate(call: Option<CallRecord>, st: Settings)
      returns (states: seq<State>, actions: seq<Action>)
    ensures IsRun(call, states, actions, st) && states != [] && true in Final(states).shared.creates
    ensures forall a :: a in actions ==> !a.Timeout? && !a.CallerSpeaks?
  {
    hide ToolList, Start, IsRun, Apply, Released, Proceeded, Dispatched, Referred, AcquireStep, Overruled;
    states, actions := SessionIsReady(call, st);
    states, actions := Then(call, states, actions, ServerStartsUnasked, st);
    states, actions := Then(call, states, actions, Receive(Delivered), st);
    assert Final(states).shared.creates[0];
  }

  // A handler that stops waiting for the greeting to finish answers on top of it.
  lemma TimeoutsBreakTheGate(call: Option<CallRecord>, st: Settings)
      returns (states: seq<State>, actions: seq<Action>)
    requires IsNewCall(call)
    ensures IsRun(call, states, actions, st) && states != [] && true in Final(states).shared.creates
    ensures forall a :: a in actions ==> !a.ServerStartsUnasked? && !a.CallerSpeaks?
  {
    hide ToolList, Start, Apply, IsRun, Advance, ReceiveStep, AcquireStep, ServerStep, Dispatched, Referred, Released,
         Overruled;
    states, actions := GreetingIsSpoken(call, st);
    StartIsCalm(call);
    states, actions := CompletionGoesAhead(call, states, actions, st);
    states, actions := Then(call, states, actions, Resume(Task(0), Delivered), st);
    states, actions := Then(call, states, actions, Resume(Task(0), Delivered), st);
    assert Final(states).shared.creates[1];
  }

  // The greeting is being spoken and the caller has been frustrated n times.
  ghost predicate Annoyed(s: State, n: nat) {
    && Talking(s) && s.handlers == [] && s.shared.core.call.Some?
    && s.shared.core.call.value.frustration == n
    && s.shared.core.call.value.toolFailures == 0 && !s.shared.core.call.value.escalated
  }

  lemma StartIsCalm(call: Option<CallRecord>)
    requires IsNewCall(call)
    ensures var c := Start(call);
      && Calm(c) && c.called == {} && c.turns == 0 && c.phase.Greeting?
      && c.call.Some? == call.Some? && IsKnown(c.call) == IsKnown(call)
  {
    hide ToolList;
  }

  lemma {:induction false} CallerGetsAnnoyed(call: Option<CallRecord>, n: nat, st: Settings)
      returns (states: seq<State>, actions: seq<Action>)
    requires IsNewCall(call) && call.Some?
    requires n < st.frustrationLimit && st.toolFailureLimit >= 1
    ensures IsRun(call, states, actions, st) && states != [] && Annoyed(Final(states), n)
    ensures forall a :: a in actions ==> !a.Timeout? && !a.ServerStartsUnasked?
  {
    hide ToolList, Start, IsRun, Resumed, Released, Proceeded, Dispatched, Referred, AcquireStep, Overruled;
    if n == 0 {
      StartIsCalm(call);
      states, actions := GreetingIsSpoken(call, st);
    } else {
      states, actions := CallerGetsAnnoyed(call, n - 1, st);
      states, actions := Then(call, states, actions, CallerSpeaks(true), st);
      states, actions := Then(call, states, actions, Receive(Delivered), st);
    }
  }

  // The caller's last straw makes the event loop announce the transfer.
  lemma LoopEscalates(call: Option<CallRecord>, st: Settings)
      returns (states: seq<State>, actions: seq<Action>)
    requires IsNewCall(call) && call.Some? && st.frustrationLimit >= 1 && st.toolFailureLimit >= 1
    ensures IsRun(call, states, actions, st) && states != []
    ensures var s := Final(states);
      s.loop.EscSay? && s.handlers == [] && s.shared.connected && !s.shared.over && s.shared.server.Responding?
    ensures forall a :: a in actions ==> !a.Timeout? && !a.ServerStartsUnasked?
  {
    hide ToolList, IsRun, Start, Resumed, Released, Proceeded, Dispatched, Referred, AcquireStep, Overruled;
    states, actions := CallerGetsAnnoyed(call, st.frustrationLimit - 1, st);
    states, actions := Then(call, states, actions, CallerSpeaks(true), st);
    states, actions := Then(call, states, actions, Receive(Delivered), st);
  }

  // Escalating out of the event loop speaks over the response in progress, whatever the limits.
  lemma FrustrationBreaksTheGate(call: Option<CallRecord>, st: Settings)
      returns (states: seq<State>, actions: seq<Action>)
    requires IsNewCall(call) && call.Some? && st.frustrationLimit >= 1 && st.toolFailureLimit >= 1
    ensures IsRun(call, states, actions, st) && states != [] && true in Final(states).shared.creates
    ensures Final(states).loop == EscCreate(Delivered) && Final(states).handlers == [] && !Final(states).shared.ready
    ensures Final(states).shared.connected && !Final(states).shared.over
    ensures forall a :: a in actions ==> !a.Timeout? && !a.ServerStartsUnasked?
  {
    hide ToolList, IsRun, Apply, Released, Proceeded, Dispatched, Referred, AcquireStep, ReceiveStep, ServerStep,
         Overruled;
    states, actions := LoopEscalates(call, st);
    states, actions := Then(call, states, actions, Resume(Loop, Delivered), st);
    var creates := Final(states).shared.creates;
    assert creates[|creates| - 1];
  }

  // And then it waits for the end of a response that only it could hear of.
  lemma LoopComesToWait(call: Option<CallRecord>, st: Settings)
      returns (states: seq<State>, actions: seq<Action>)
    requires IsNewCall(call) && call.Some? && st.frustrationLimit >= 1 && st.toolFailureLimit >= 1
    ensures IsRun(call, states, actions, st) && states != [] && LoopWaitsOnItself(Final(states))
    ensures forall a :: a in actions ==> !a.Timeout? && !a.ServerStartsUnasked?
  {
    hide ToolList, IsRun, Apply, Released, Proceeded, Dispatched, Referred, AcquireStep, ReceiveStep, ServerStep,
         Overruled;
    states, actions := FrustrationBreaksTheGate(call, st);
    states, actions := Then(call, states, actions, Resume(Loop, Delivered), st);
  }

  // ---- One response, two phases ----

  // For every settings, every caller and every phase the caller can be in, there is a run in which one
  // completed response moves the conversation twice out of that phase, with no wait timing out at the end.
  lemma OneResponseAdvancesTwice(call: Option<CallRecord>, phase: ConvPhase, st: Settings)
      returns (states: seq<State>, actions: seq<Action>, n: nat)
    requires IsNewCall(call) && (phase.Verify? ==> !IsKnown(call))
    ensures IsRun(call, states, actions, st) && |states| == |actions| + 1 && n + 3 == |actions|
    ensures actions[n] == Receive(Delivered) && states[n].shared.inbox != []
      && states[n].shared.inbox[0] == ResponseDone
    ensures actions[n + 1].Wake? && actions[n + 2].Proceed?
    ensures var c, f := states[n].shared.core, Final(states).shared.core;
      var known := IsKnown(call);
      && c.phase == phase && Moves(f.history) == Moves(c.history) + 2
      && f.phase == Following(Following(phase, known), known)
      && (phase.Resolve? ==> Count(f.history, EndRequested) > Count(c.history, EndRequested))
  {
    hide ToolList, Moves, Following, Apply, Step, Count, IsRun, Calm;
    states, actions := Reached(call, phase, st);
    states, actions := LastTurn(call, states, actions, st);
    var i := |Final(states).handlers|;
    states, actions := HandlerIsAsked(call, states, actions, PhaseComplete, None, st);
    states, actions := ResponseEnds(call, states, actions, i, st);
    RunLength(call, states, actions, st);
    n := |actions|;
    OneResponseCanAdvanceTwice(Final(states), i, Delivered, st);
    ghost var s := states;
    states, actions := Then(call, states, actions, Receive(Delivered), st);
    states, actions := Then(call, states, actions, Wake(Task(i)), st);
    states, actions := Then(call, states, actions, Proceed(i), st);
    assert states[n] == s[n];
    RunLength(call, states, actions, st);
  }

  lemma RunLength(call: Option<CallRecord>, states: seq<State>, actions: seq<Action>, st: Settings)
    requires IsRun(call, states, actions, st)
    ensures |states| == |actions| + 1 && Final(states) == states[|actions|]
  {
  }

  lemma ResponseEnds(call: Option<CallRecord>, states: seq<State>, actions: seq<Action>, i: nat, st: Settings)
      returns (states': seq<State>, actions': seq<Action>)
    requires IsRun(call, states, actions, st) && states != []
    requires var s := Final(states);
      s.loop.Done? && s.shared.connected && !s.shared.over && s.shared.inbox == [] && s.shared.server.Responding?
    ensures IsRun(call, states', actions', st) && states' != []
    ensures var s, s' := Final(states), Final(states');
      s' == s.(shared := s.shared.(server := Resting, inbox := [ResponseDone]))
    ensures actions' == actions + [ServerFinishes] && states <= states'
  {
    hide ToolList, IsRun, ReceiveStep, AcquireStep;
    states', actions' := Then(call, states, actions, ServerFinishes, st);
  }

  // ---- One response, two handlers ----

  // Handlers n and n + 1 are phase_completes; the others have ended, and the session is open.
  ghost predicate TwoAtWork(s: State, n: nat, first: Pc, second: Pc) {
    && |s.handlers| == n + 2
    && s.handlers[n] == Handler(PhaseComplete, None, false, first)
    && s.handlers[n + 1] == Handler(PhaseComplete, None, false, second)
    && s.loop.Done? && s.shared.connected && !s.shared.over
    && s.lock == (if first.Done? then (if second.AwaitLock? then None else Some(n + 1)) else Some(n))
  }

  lemma TwoArrive(call: Option<CallRecord>, states: seq<State>, actions: seq<Action>, n: nat, st: Settings)
      returns (states': seq<State>, actions': seq<Action>)
    requires IsRun(call, states, actions, st) && states != []
    requires Talking(Final(states)) && n == |Final(states).handlers|
    ensures IsRun(call, states', actions', st) && states' != []
    ensures TwoAtWork(Final(states'), n, AwaitGate, AwaitLock) && Final(states').shared == Final(states).shared
    ensures forall a :: a in actions' ==> a in actions || Calls(a)
  {
    hide ToolList, IsRun, Apply, Released, Proceeded, Resumed, Dispatched, Referred, Overruled, ServerStep, ReceiveStep;
    states', actions' := HandlerArrives(call, states, actions, PhaseComplete, None, st);
    states', actions' := HandlerArrives(call, states', actions', PhaseComplete, None, st);
    states', actions' := Then(call, states', actions', Acquire(n), st);
  }

  lemma GateOpens(call: Option<CallRecord>, states: seq<State>, actions: seq<Action>, n: nat, st: Settings)
      returns (states': seq<State>, actions': seq<Action>)
    requires IsRun(call, states, actions, st) && states != [] && TwoAtWork(Final(states), n, AwaitGate, AwaitLock)
    requires Final(states).shared.inbox == [ResponseDone]
    requires var c := Final(states).shared.core; c.turns + 1 < TurnLimit(c.phase, st)
    ensures IsRun(call, states', actions', st) && states' != [] && TwoAtWork(Final(states'), n, AwaitGate, AwaitLock)
    ensures states <= states' && actions' == actions + [Receive(Delivered)]
    ensures Final(states').shared.ready
    ensures var c := Final(states).shared.core; Final(states').shared.core == Note(c.(turns := c.turns + 1), Turn)
  {
    hide ToolList, IsRun, Apply, Released, Proceeded, Resumed, Dispatched, Referred, Overruled, ServerStep, AcquireStep;
    TurnIsQuiet(Final(states).shared.core, st);
    states', actions' := Then(call, states, actions, Receive(Delivered), st);
  }

  lemma FirstPasses(call: Option<CallRecord>, states: seq<State>, actions: seq<Action>, n: nat, st: Settings)
      returns (states': seq<State>, actions': seq<Action>)
    requires IsRun(call, states, actions, st) && states != [] && TwoAtWork(Final(states), n, AwaitGate, AwaitLock)
    requires Final(states).shared.ready && !Final(states).shared.core.phase.WrapUp?
    ensures IsRun(call, states', actions', st) && states' != [] && TwoAtWork(Final(states'), n, SendUpdate, AwaitLock)
    ensures states <= states' && actions' == actions + [Wake(Task(n)), Proceed(n)]
    ensures Final(states').shared.core == Advance(Final(states).shared.core).core
  {
    hide ToolList, IsRun, Apply, Advance, Resumed, Dispatched, Referred, Overruled, ServerStep, AcquireStep,
         ReceiveStep;
    PlainCompletion(Final(states).shared.core, st);
    states', actions' := Then(call, states, actions, Wake(Task(n)), st);
    states', actions' := Then(call, states', actions', Proceed(n), st);
  }

  // Its response.create fails, and the gate opens again.
  lemma CreateFails(call: Option<CallRecord>, states: seq<State>, actions: seq<Action>, n: nat, st: Settings)
      returns (states': seq<State>, actions': seq<Action>)
    requires IsRun(call, states, actions, st) && states != [] && TwoAtWork(Final(states), n, SendUpdate, AwaitLock)
    ensures IsRun(call, states', actions', st) && states' != [] && TwoAtWork(Final(states'), n, Done, AwaitLock)
    ensures states <= states'
    ensures actions' ==
      actions + [Resume(Task(n), Delivered), Resume(Task(n), Refused), Resume(Task(n), Delivered)]
    ensures Final(states').shared.core == Final(states).shared.core && Final(states').shared.ready
  {
    hide ToolList, IsRun, Apply, Released, Proceeded, Dispatched, Referred, Overruled, ServerStep, AcquireStep,
         ReceiveStep;
    states', actions' := Then(call, states, actions, Resume(Task(n), Delivered), st);
    states', actions' := Then(call, states', actions', Resume(Task(n), Refused), st);
    states', actions' := Then(call, states', actions', Resume(Task(n), Delivered), st);
  }

  lemma SecondPasses(call: Option<CallRecord>, states: seq<State>, actions: seq<Action>, n: nat, st: Settings)
      returns (states': seq<State>, actions': seq<Action>)
    requires IsRun(call, states, actions, st) && states != [] && TwoAtWork(Final(states), n, Done, AwaitLock)
    requires Final(states).shared.ready && !Final(states).shared.core.phase.WrapUp?
    ensures IsRun(call, states', actions', st) && states' != []
    ensures states <= states' && actions' == actions + [Acquire(n + 1), Wake(Task(n + 1)), Proceed(n + 1)]
    ensures Final(states').shared.core == Advance(Final(states).shared.core).core
  {
    hide ToolList, IsRun, Apply, Advance, Resumed, Dispatched, Referred, Overruled, ServerStep, ReceiveStep;
    PlainCompletion(Final(states).shared.core, st);
    states', actions' := Then(call, states, actions, Acquire(n + 1), st);
    states', actions' := Then(call, states', actions', Wake(Task(n + 1)), st);
    states', actions' := Then(call, states', actions', Proceed(n + 1), st);
  }

  // What follows once the gate is open: the first handler passes and fails to answer, the second passes.
  function Passing(n: nat): seq<Action> {
    [Wake(Task(n)), Proceed(n)]
    + [Resume(Task(n), Delivered), Resume(Task(n), Refused), Resume(Task(n), Delivered)]
    + [Acquire(n + 1), Wake(Task(n + 1)), Proceed(n + 1)]
  }

  lemma BothPass(call: Option<CallRecord>, states: seq<State>, actions: seq<Action>, n: nat, st: Settings)
      returns (states': seq<State>, actions': seq<Action>)
    requires IsRun(call, states, actions, st) && states != [] && TwoAtWork(Final(states), n, AwaitGate, AwaitLock)
    requires var c := Final(states).shared.core; Final(states).shared.ready && !c.phase.WrapUp? && !c.phase.Resolve?
    ensures IsRun(call, states', actions', st) && states' != []
    ensures states <= states' && actions' == actions + Passing(n)
    ensures Moves(Final(states').shared.core.history) == Moves(Final(states).shared.core.history) + 2
  {
    hide IsRun, Moves, Advance, Step, TwoAtWork;
    var turned := Final(states).shared.core;
    AdvanceMovesOnce(turned);
    AdvanceMovesOnce(Advance(turned).core);
    states', actions' := FirstPasses(call, states, actions, n, st);
    states', actions' := CreateFails(call, states', actions', n, st);
    states', actions' := SecondPasses(call, states', actions', n, st);
  }

  lemma TwoPassFrom(call: Option<CallRecord>, states: seq<State>, actions: seq<Action>, st: Settings)
      returns (states': seq<State>, actions': seq<Action>, m: nat)
    requires IsRun(call, states, actions, st) && states != [] && Talking(Final(states))
    requires var c := Final(states).shared.core;
      c.turns + 1 < TurnLimit(c.phase, st) && !c.phase.WrapUp? && !c.phase.Resolve?
    ensures IsRun(call, states', actions', st) && m < |actions'| < |states'|
    ensures OneResponse(states', actions', m, |actions'|)
    ensures forall x :: m <= x < |actions'| ==> Calls(actions'[x])
    ensures forall a :: a in actions' ==> a in actions || Calls(a)
    ensures var c, f := states'[m].shared.core, Final(states').shared.core;
      c.turns + 1 < TurnLimit(c.phase, st) && Moves(f.history) == Moves(c.history) + 2
  {
    hide ToolList, IsRun, Moves, Advance, Step, Apply, TurnLimit;
    states', actions' := states, actions;
    var n := |Final(states).handlers|;
    states', actions' := TwoArrive(call, states', actions', n, st);
    states', actions' := ResponseEnds(call, states', actions', n, st);
    RunLength(call, states', actions', st);
    m := |actions'|;
    ghost var before := states';
    var c := Final(states').shared.core;
    states', actions' := GateOpens(call, states', actions', n, st);
    NoteMoves(c.(turns := c.turns + 1), Turn);
    states', actions' := BothPass(call, states', actions', n, st);
    RunLength(call, states', actions', st);
    assert states'[m] == before[m];
  }

  // For every caller and settings: one response that stays below the turn limit moves the conversation
  // twice, because a response.create that fails opens the gate for the next handler. Where the greeting may
  // take two turns the whole run meets the gate's assumptions.
  lemma FailedCreateLetsTwoPass(call: Option<CallRecord>, st: Settings)
      returns (states: seq<State>, actions: seq<Action>, m: nat)
    requires IsNewCall(call)
    ensures IsRun(call, states, actions, st) && m < |actions| < |states|
    ensures OneResponse(states, actions, m, |actions|)
    ensures forall x :: m <= x < |actions| ==> Calls(actions[x])
    ensures st.maxTurnsPerPhase >= 2 ==> forall a :: a in actions ==> Calls(a)
    ensures var c, f := states[m].shared.core, Final(states).shared.core;
      c.turns + 1 < TurnLimit(c.phase, st) && Moves(f.history) == Moves(c.history) + 2
  {
    hide ToolList, IsRun, Moves, Start, OneResponse, Talking;
    if st.maxTurnsPerPhase >= 2 {
      StartIsCalm(call);
      states, actions := GreetingIsSpoken(call, st);
      SpokenIsTalking(Final(states), call);
    } else {
      states, actions := Reached(call, Diagnose, st);
    }
    states, actions, m := TwoPassFrom(call, states, actions, st);
  }

  lemma SpokenIsTalking(s: State, call: Option<CallRecord>)
    requires IsGreeting(s, call, Responding, Done)
    ensures Talking(s)
  {
    hide Start;
  }

  // ---- Synonyms ----

  // A tool's dispatch returns, nothing is escalated, and the handler answers.
  lemma ToolCompletes(call: Option<CallRecord>, states: seq<State>, actions: seq<Action>, tool: Tool, st: Settings)
      returns (states': seq<State>, actions': seq<Action>)
    requires IsRun(call, states, actions, st) && states != [] && Talking(Final(states))
    requires !Intercepted(tool) && !tool.EscalateToAgent? && DispatchAllowed(Final(states).shared.core, tool)
    requires !(IsOneCall(tool) && tool in Final(states).shared.core.called)
    requires Calm(Final(states).shared.core)
    requires Final(states).shared.core.call.Some? ==> st.frustrationLimit >= 1 && st.toolFailureLimit >= 1
    ensures IsRun(call, states', actions', st) && states' != [] && Talking(Final(states'))
    ensures Final(states').shared.core == RecordTool(Final(states).shared.core, tool)
  {
    hide ToolList, IsRun, Apply, DispatchAllowed, Step;
    var n := |Final(states).handlers|;
    var woken: State;
    NothingEscalates(Final(states).shared.core, tool, st);
    states', actions', woken := HandlerGoesAhead(call, states, actions, tool, None, st);
    states', actions' := ToolReturnsQuietly(call, states', actions', tool, n, st);
    states', actions' := HandlerAnswers(call, states', actions', n, st);
  }

  lemma ToolReturnsQuietly(call: Option<CallRecord>, states: seq<State>, actions: seq<Action>, tool: Tool, n: nat,
                           st: Settings)
      returns (states': seq<State>, actions': seq<Action>)
    requires IsRun(call, states, actions, st) && states != [] && n + 1 == |Final(states).handlers|
    requires var h := Final(states).handlers[n]; h.tool == tool && h.pc == Dispatching(true, false)
    requires !tool.EscalateToAgent?
    requires var c := Final(states).shared.core;
      Apply(c, ToolSucceeded(tool, true), st) == Outcome(RecordTool(c, tool), Quiet)
    ensures IsRun(call, states', actions', st) && states' != []
    ensures var s := Final(states);
      Final(states') == s.(shared := s.shared.(core := RecordTool(s.shared.core, tool)),
                           handlers := s.handlers[n := s.handlers[n].(pc := SendOutput)])
  {
    hide ToolList, IsRun, Apply, DispatchAllowed, Released, Resumed, Received, Proceeded, Referred, Overruled,
         ReceiveStep,
         AcquireStep, ServerStep;
    states', actions' := Then(call, states, actions, DispatchReturns(n, true), st);
  }

  lemma NothingEscalates(c: Core, tool: Tool, st: Settings)
    requires !tool.EscalateToAgent? && Calm(c)
    requires c.call.Some? ==> st.frustrationLimit >= 1 && st.toolFailureLimit >= 1
    ensures Apply(c, ToolSucceeded(tool, true), st) == Outcome(RecordTool(c, tool), Quiet)
  {
  }

  // Requested under any of its synonyms, a one-call tool completes twice in one visit of DIAGNOSE.
  lemma SynonymsEscape(call: Option<CallRecord>, tool: Tool, st: Settings)
      returns (states: seq<State>, actions: seq<Action>)
    requires IsNewCall(call) && (call.Some? ==> st.frustrationLimit >= 1 && st.toolFailureLimit >= 1)
    requires Canonical(tool) != tool && IsOneCall(Canonical(tool))
    ensures IsRun(call, states, actions, st) && states != []
    ensures var c := Final(states).shared.core;
      && c.phase.Diagnose? && |c.history| >= 2
      && c.history[|c.history| - 2..] == [Completed(tool), Completed(tool)]
      && !CanonicalOncePerVisit(c.history)
  {
    hide Talking, IsRun, ToolList, CanonicalOncePerVisit, DispatchAllowed, Calm, Canonical, IsOneCall;
    states, actions := Reached(call, Diagnose, st);
    PhaseStoreAndOfferAgree(call, states, actions, st);
    SynonymIsAllowed(Final(states).shared.core, tool);
    var c := Final(states).shared.core;
    states, actions := ToolCompletes(call, states, actions, tool, st);
    SynonymIsAllowed(RecordTool(c, tool), tool);
    RecordingStaysCalm(c, tool);
    states, actions := ToolCompletes(call, states, actions, tool, st);
    TwiceInOneVisit(c.history, tool);
    assert Final(states).shared.core.history == c.history + [Completed(tool)] + [Completed(tool)];
  }

  lemma RecordingStaysCalm(c: Core, tool: Tool)
    requires Calm(c)
    ensures Calm(RecordTool(c, tool))
  {
  }

  lemma SynonymIsAllowed(c: Core, tool: Tool)
    requires Canonical(tool) != tool && IsOneCall(Canonical(tool)) && c.phase.Diagnose?
    requires c.call.Some? ==> c.call.value.phase == c.phase
    ensures DispatchAllowed(c, tool) && !Intercepted(tool) && !tool.EscalateToAgent? && !IsOneCall(tool)
  {
    hide DiagnoseAllowed, ResolveExtra;
    AllowedByStage(Canonical(tool));
  }

  lemma TwiceInOneVisit(h: seq<Observation>, tool: Tool)
    requires IsOneCall(Canonical(tool))
    ensures !CanonicalOncePerVisit(h + [Completed(tool)] + [Completed(tool)])
  {
    hide Canonical, IsOneCall;
    var h' := h + [Completed(tool)] + [Completed(tool)];
    assert h'[|h|] == Completed(tool) && h'[|h| + 1] == Completed(tool);
  }

  // ---- escalate_to_agent refused on its retry ----

  // For every settings and every registered caller: the tool passes the guard outside TRIAGE, the response in
  // progress completes at the turn limit and takes the conversation to TRIAGE, and the retry after a transient
  // error is refused. The caller is dropped although nothing was wrong when the tool was first dispatched.
  lemma CallerIsDroppedOnRetry(call: Option<CallRecord>, st: Settings)
      returns (states: seq<State>, actions: seq<Action>, first: nat)
    requires IsNewCall(call) && call.Some?
    ensures IsRun(call, states, actions, st) && first < |actions| < |states|
    ensures actions[first].Proceed? && actions[first].i < |states[first].handlers|
    ensures states[first].handlers[actions[first].i].tool.EscalateToAgent?
    ensures states[first].shared.core.call.Some? && !states[first].shared.core.call.value.phase.Triage?
    ensures actions[|actions| - 1] == DispatchReturns(actions[first].i, true)
    ensures var c := Final(states).shared.core;
      && Final(states).shared.closing
      && c.history != [] && c.history[|c.history| - 1] == AgentClose(false)
      && c.call.Some? && c.call.value.state == states[first].shared.core.call.value.state
  {
    hide ToolList, IsRun, Talking, Calm;
    states, actions := Reached(call, if IsKnown(call) then Greeting else Verify, st);
    states, actions := LastTurn(call, states, actions, st);
    PhaseStoreAndOfferAgree(call, states, actions, st);
    states, actions, first := DroppedOnRetry(call, states, actions, st);
  }

  lemma DroppedOnRetry(call: Option<CallRecord>, states: seq<State>, actions: seq<Action>, st: Settings)
      returns (states': seq<State>, actions': seq<Action>, first: nat)
    requires IsRun(call, states, actions, st) && states != [] && Talking(Final(states))
    requires var c := Final(states).shared.core;
      && c.call.Some? && c.call.value.phase == c.phase && c.turns + 1 >= TurnLimit(c.phase, st)
      && c.phase == (if IsKnown(c.call) then Greeting else Verify)
    ensures IsRun(call, states', actions', st) && first < |actions'| < |states'|
    ensures actions'[first].Proceed? && actions'[first].i < |states'[first].handlers|
    ensures states'[first].handlers[actions'[first].i].tool.EscalateToAgent?
    ensures states'[first].shared.core.call.Some? && !states'[first].shared.core.call.value.phase.Triage?
    ensures actions'[|actions'| - 1] == DispatchReturns(actions'[first].i, true)
    ensures var c := Final(states').shared.core;
      && Final(states').shared.closing
      && c.history != [] && c.history[|c.history| - 1] == AgentClose(false)
      && c.call.Some? && c.call.value.state == states'[first].shared.core.call.value.state
  {
    hide Talking, IsRun, Step, ToolList;
    var n := |Final(states).handlers|;
    states', actions' := AgentGoesAhead(call, states, actions, st);
    RunLength(call, states', actions', st);
    first := |actions'| - 1;
    ghost var before := states';
    states', actions' := PhaseSlips(call, states', actions', n, st);
    states', actions' := RetryIsRefused(call, states', actions', n, st);
    RunLength(call, states', actions', st);
    assert states'[first] == before[first];
  }

  // escalate_to_agent is being dispatched, allowed, while the response in progress goes on.
  ghost predicate Escalating(s: State, n: nat, allowed: bool, retried: bool) {
    && n + 1 == |s.handlers| && s.handlers[n].tool.EscalateToAgent? && s.handlers[n].pc == Dispatching(allowed, retried)
    && s.shared.connected && !s.shared.over && s.shared.core.call.Some?
  }

  lemma AgentGoesAhead(call: Option<CallRecord>, states: seq<State>, actions: seq<Action>, st: Settings)
      returns (states': seq<State>, actions': seq<Action>)
    requires IsRun(call, states, actions, st) && states != [] && Talking(Final(states))
    requires var c := Final(states).shared.core; c.call.Some? && !c.call.value.phase.Triage?
    ensures IsRun(call, states', actions', st) && |states'| >= 2 && |actions'| >= 1
    ensures var n := |Final(states).handlers|;
      && actions'[|actions'| - 1] == Proceed(n) && Escalating(Final(states'), n, true, false)
      && n < |states'[|states'| - 2].handlers| && states'[|states'| - 2].handlers[n].tool.EscalateToAgent?
    ensures states'[|states'| - 2].shared.core == Final(states).shared.core == Final(states').shared.core
    ensures var s := Final(states').shared; Final(states').loop.Done? && s.inbox == [] && s.server.Responding?
  {
    hide ToolList, IsRun, Apply, Step, GuardAllows;
    var woken: State;
    AgentGuard(Final(states).shared.core.call.value.phase);
    states', actions', woken := HandlerGoesAhead(call, states, actions, EscalateToAgent, None, st);
  }

  // The response completes at the turn limit: the conversation is in TRIAGE.
  lemma PhaseSlips(call: Option<CallRecord>, states: seq<State>, actions: seq<Action>, n: nat, st: Settings)
      returns (states': seq<State>, actions': seq<Action>)
    requires IsRun(call, states, actions, st) && states != [] && Escalating(Final(states), n, true, false)
    requires var s := Final(states); s.loop.Done? && s.shared.inbox == [] && s.shared.server.Responding?
    requires var c := Final(states).shared.core;
      c.turns + 1 >= TurnLimit(c.phase, st) && c.phase == (if IsKnown(c.call) then Greeting else Verify)
    ensures IsRun(call, states', actions', st) && states' != [] && Escalating(Final(states'), n, true, false)
    ensures Final(states').shared.core.call.value.phase.Triage?
    ensures Final(states').shared.core.call.value.state == Final(states).shared.core.call.value.state
    ensures states <= states' && actions <= actions'
  {
    hide ToolList, IsRun, Apply, Released, Resumed, Proceeded, Dispatched, Referred, AcquireStep, ServerStep, Overruled;
    TurnEntersTriage(Final(states).shared.core, st);
    states', actions' := ResponseEnds(call, states, actions, n, st);
    states', actions' := Then(call, states', actions', Receive(Delivered), st);
  }

  lemma TurnEntersTriage(c: Core, st: Settings)
    requires c.call.Some? && c.turns + 1 >= TurnLimit(c.phase, st)
    requires c.phase == (if IsKnown(c.call) then Greeting else Verify)
    ensures var o := Apply(c, ResponseCompleted, st);
      && o.signal.PhaseEntered? && o.core.call.Some? && o.core.call.value.phase.Triage?
      && o.core.call.value.state == c.call.value.state
  {
    hide ToolList;
  }

  lemma RetryIsRefused(call: Option<CallRecord>, states: seq<State>, actions: seq<Action>, n: nat, st: Settings)
      returns (states': seq<State>, actions': seq<Action>)
    requires IsRun(call, states, actions, st) && states != [] && Escalating(Final(states), n, true, false)
    requires Final(states).shared.core.call.value.phase.Triage?
    ensures IsRun(call, states', actions', st) && states' != [] && states <= states'
    ensures actions' == actions + [Retry(n), DispatchReturns(n, true)]
    ensures var c := Final(states').shared.core;
      && Final(states').shared.closing
      && c.history != [] && c.history[|c.history| - 1] == AgentClose(false)
      && c.call.Some? && c.call.value.state == Final(states).shared.core.call.value.state
  {
    hide ToolList, IsRun, GuardAllows, Released, Resumed, Proceeded, Received, ReceiveStep, Referred, AcquireStep,
         ServerStep, Overruled;
    AgentGuard(Triage);
    states', actions' := Then(call, states, actions, Retry(n), st);
    states', actions' := Then(call, states', actions', DispatchReturns(n, true), st);
  }
}
