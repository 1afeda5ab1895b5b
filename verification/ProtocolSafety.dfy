// What every interleaving of the session protocol keeps.
module ProtocolSafety {
  import opened Models
  import opened ToolCatalog
  import opened PhaseMachine
  import opened SessionProtocol

  // ---- How one action moves the tasks ----

  // The task an action moves, if any.
  function Actor(a: Action): Option<Who> {
    match a
    case Receive(d) => Some(Loop)
    case Resume(who, d) => Some(who)
    case Wake(who) => Some(who)
    case Timeout(who) => Some(who)
    case Acquire(i) => Some(Task(i))
    case Proceed(i) => Some(Task(i))
    case HandlerDies(i) => Some(Task(i))
    case Retry(i) => Some(Task(i))
    case DispatchReturns(i, ok) => Some(Task(i))
    case ReferReturns(who, ok) => Some(who)
    case Rejoin => Some(Loop)
    case _ => None
  }

  predicate Holds(pc: Pc) {
    !pc.AwaitLock? && !pc.Done?
  }

  // An action moves its own task only; new handlers queue for the lock.
  ghost predicate OthersStay(s: State, s': State, a: Action) {
    && |s.handlers| <= |s'.handlers|
    && (forall i :: 0 <= i < |s.handlers| && Actor(a) != Some(Task(i)) ==> s'.handlers[i] == s.handlers[i])
    && (forall i :: |s.handlers| <= i < |s'.handlers| ==> s'.handlers[i].pc == AwaitLock && !s'.handlers[i].duplicate)
    && (Actor(a) != Some(Loop) ==> s'.loop == s.loop)
  }

  // How the acting handler and the lock move together.
  predicate LockMoves(s: State, s': State, i: nat)
    requires i < |s.handlers| <= |s'.handlers|
  {
    var pc, pc' := s.handlers[i].pc, s'.handlers[i].pc;
    && s'.handlers[i].tool == s.handlers[i].tool
    && (|| (pc.AwaitLock? && pc'.AwaitGate? && s.lock.None? && s'.lock == Some(i))
        || (Holds(pc) && Holds(pc') && s'.lock == s.lock && s'.handlers[i].duplicate == s.handlers[i].duplicate)
        || (Holds(pc) && pc'.Done? && s'.lock.None?))
  }

  // On its way to an automatic REFER.
  predicate PreRefer(pc: Pc) {
    pc.EscSay? || pc.EscSilent? || pc.EscCreate? || pc.EscAwait?
  }

  // Past the gate a handler goes on to update the session, dispatch, close or answer.
  lemma ProceededGoesOn(g: Shared, h: Handler, st: Settings)
    ensures var pc := Proceeded(g, h, st).pc;
      pc.SendUpdate? || pc.SendOutput? || pc == Closing(true) || (pc.Dispatching? && !h.duplicate)
  {
    hide Apply, DispatchAllowed;
  }

  lemma StepLeavesOthers(s: State, a: Action, st: Settings)
    requires Step(s, a, st).Some?
    ensures OthersStay(s, Step(s, a, st).value, a)
  {
    hide Apply, Received, Resumed, Released, Proceeded, Dispatched, Referred, DispatchAllowed, ServerStep, Overruled;
  }

  lemma StepMoves(s: State, a: Action, st: Settings)
    requires Step(s, a, st).Some?
    ensures OthersStay(s, Step(s, a, st).value, a)
    ensures if Actor(a).Some? && Actor(a).value.Task?
            then Actor(a).value.i < |s.handlers| && LockMoves(s, Step(s, a, st).value, Actor(a).value.i)
            else Step(s, a, st).value.lock == s.lock
  {
    hide Apply, Received, Proceeded, DispatchAllowed, OthersStay;
    StepLeavesOthers(s, a, st);
    if a.Proceed? {
      ProceededGoesOn(s.shared, s.handlers[a.i], st);
    }
  }

  // ---- The tool lock excludes ----

  // Exactly the lock's holder is between acquiring it and ending.
  ghost predicate LockExcludes(s: State) {
    && (s.lock.Some? ==> s.lock.value < |s.handlers|)
    && forall i :: 0 <= i < |s.handlers| ==> (Holds(s.handlers[i].pc) <==> s.lock == Some(i))
  }

  lemma StepKeepsLock(s: State, a: Action, st: Settings)
    requires Step(s, a, st).Some? && LockExcludes(s)
    ensures LockExcludes(Step(s, a, st).value)
  {
    hide Step;
    StepMoves(s, a, st);
  }

  // ---- One-call tools ----

  // Between its duplicate check and its completion.
  predicate Checked(h: Handler) {
    h.pc.AwaitGate? || h.pc.Woken? || h.pc.Dispatching?
  }

  // A checked handler that was not a duplicate still is none; a duplicate never dispatches.
  predicate CheckHolds(h: Handler, called: set<Tool>) {
    && (Checked(h) && IsOneCall(h.tool) && !h.duplicate ==> h.tool !in called)
    && (h.pc.Dispatching? ==> !h.duplicate)
  }

  ghost predicate ChecksHold(s: State) {
    forall i :: 0 <= i < |s.handlers| ==> CheckHolds(s.handlers[i], s.shared.core.called)
  }

  // Only a completing tool adds to the visit's tools.
  lemma CalledGrowsOnlyByTools(c: Core, e: Event, st: Settings)
    ensures Apply(c, e, st).core.called <= c.called + (if e.ToolSucceeded? then {e.tool} else {})
  {
    hide ToolList;
  }

  // The acting handler's own check, step by step.
  lemma ActorKeepsCheck(s: State, a: Action, st: Settings, i: nat)
    requires Step(s, a, st).Some? && Actor(a) == Some(Task(i)) && i < |s.handlers|
    requires CheckHolds(s.handlers[i], s.shared.core.called)
    requires !a.DispatchReturns? ==> Step(s, a, st).value.shared.core.called <= s.shared.core.called
    ensures CheckHolds(Step(s, a, st).value.handlers[i], Step(s, a, st).value.shared.core.called)
  {
    hide Apply, DispatchAllowed, Received, Proceeded;
    if a.Proceed? {
      ProceededGoesOn(s.shared, s.handlers[i], st);
    }
  }

  lemma StepKeepsChecks(s: State, a: Action, st: Settings)
    requires Step(s, a, st).Some? && LockExcludes(s) && ChecksHold(s)
    ensures ChecksHold(Step(s, a, st).value)
  {
    hide Apply, Step;
    StepMoves(s, a, st);
    StepIsEvent(s, a, st);
    var e := EventOf(s, a);
    if e.Some? {
      CalledGrowsOnlyByTools(s.shared.core, e.value, st);
    }
    if Actor(a).Some? && Actor(a).value.Task? {
      ActorKeepsCheck(s, a, st, Actor(a).value.i);
    }
  }

  lemma StepKeepsOncePerVisit(s: State, a: Action, st: Settings)
    requires Step(s, a, st).Some? && ChecksHold(s)
    requires VisitTracked(s.shared.core) && OncePerVisit(s.shared.core.history)
    ensures OncePerVisit(Step(s, a, st).value.shared.core.history)
  {
    hide Apply, Step;
    StepIsEvent(s, a, st);
    var e := EventOf(s, a);
    if e.Some? {
      StepKeepsOnce(s.shared.core, e.value, st);
    }
  }

  // ---- Automatic REFER ----

  // At most one task is on its way to an automatic REFER, and only before the first one is issued.
  ghost predicate OneReferrer(s: State) {
    var h := s.shared.core.history;
    && Count(h, AutoRefer) <= Count(h, Escalated)
    && (forall w :: Exists(s, w) && PreRefer(PcOf(s, w)) ==> Count(h, AutoRefer) == 0 && Count(h, Escalated) == 1)
    && (forall v, w :: Exists(s, v) && Exists(s, w) && PreRefer(PcOf(s, v)) && PreRefer(PcOf(s, w)) ==> v == w)
  }

  lemma ReceivedEscalates(g: Shared, m: Inbound, d: Delivery, st: Settings)
    ensures PreRefer(Received(g, m, d, st).pc) <==>
      m == CallerTurn(true) && Apply(g.core, CallerFrustrated, st).signal.EscalationStarted?
  {
    hide Apply;
  }

  lemma ResumedRefers(g: Shared, pc: Pc, isLoop: bool, replies: bool, d: Delivery, st: Settings)
    requires Resumed(g, pc, isLoop, replies, d, st).Some?
    ensures var pc' := Resumed(g, pc, isLoop, replies, d, st).value.pc;
      (PreRefer(pc') ==> PreRefer(pc)) && (pc.EscSilent? ==> !PreRefer(pc'))
  {
    hide Apply;
  }

  lemma DispatchedRefers(g: Shared, h: Handler, ok: bool, st: Settings)
    requires h.pc.Dispatching?
    ensures PreRefer(Dispatched(g, h, ok, st).pc) ==> Apply(g.core, ToolEvent(h, ok), st).signal.EscalationStarted?
  {
    hide Apply;
  }

  // The acting task enters the path only on the escalation signal, and leaves it by issuing the REFER.
  lemma ActorRefers(s: State, a: Action, st: Settings)
    requires Step(s, a, st).Some? && Actor(a).Some?
    ensures var s' := Step(s, a, st).value;
      var w := Actor(a).value;
      var e := EventOf(s, a);
      && Exists(s, w) && Exists(s', w)
      && (PreRefer(PcOf(s', w)) ==>
            PreRefer(PcOf(s, w)) || (e.Some? && Apply(s.shared.core, e.value, st).signal.EscalationStarted?))
      && (e == Some(AutoReferIssued) ==> PreRefer(PcOf(s, w)) && !PreRefer(PcOf(s', w)))
  {
    hide Apply, DispatchAllowed, Received, Resumed, Proceeded, Dispatched, ServerStep, Overruled;
    match a
    case Receive(d) =>
      ReceivedEscalates(s.shared.(inbox := s.shared.inbox[1..]), s.shared.inbox[0], d, st);
    case Proceed(i) =>
      ProceededGoesOn(s.shared, s.handlers[i], st);
    case Resume(who, d) =>
      ResumedRefers(s.shared, PcOf(s, who), who.Loop?, Replies(s, who), d, st);
    case DispatchReturns(i, ok) =>
      DispatchedRefers(s.shared, s.handlers[i], ok, st);
    case _ =>
  }

  // What one action does to the tasks on the path, whoever acts.
  lemma ReferPath(s: State, a: Action, st: Settings)
    requires Step(s, a, st).Some?
    ensures var s' := Step(s, a, st).value;
      var e := EventOf(s, a);
      && (e == Some(AutoReferIssued) ==>
            Actor(a).Some? && Exists(s, Actor(a).value) && PreRefer(PcOf(s, Actor(a).value))
            && Exists(s', Actor(a).value) && !PreRefer(PcOf(s', Actor(a).value)))
      && (forall w :: Exists(s', w) && PreRefer(PcOf(s', w)) ==>
            || (Exists(s, w) && PreRefer(PcOf(s, w)))
            || (Actor(a) == Some(w) && e.Some? && Apply(s.shared.core, e.value, st).signal.EscalationStarted?))
  {
    hide Apply, Step;
    StepMoves(s, a, st);
    if Actor(a).Some? {
      ActorRefers(s, a, st);
    }
  }

  lemma StepKeepsReferrer(s: State, a: Action, st: Settings)
    requires Step(s, a, st).Some? && OneReferrer(s) && EscalatedOnce(s.shared.core, st)
    ensures OneReferrer(Step(s, a, st).value)
  {
    hide Apply, Step, Count;
    StepIsEvent(s, a, st);
    ReferPath(s, a, st);
    var e := EventOf(s, a);
    if e.Some? {
      EventCounts(s.shared.core, e.value, st, AutoRefer);
      EventCounts(s.shared.core, e.value, st, Escalated);
      StepKeepsEscalation(s.shared.core, e.value, st);
    }
  }

  // ---- Closing the session ----

  // The loop hears the response that ends the conversation at the turn limit.
  predicate HearsEnd(s: State, a: Action, st: Settings) {
    && a.Receive? && s.shared.inbox != [] && s.shared.inbox[0].ResponseDone?
    && s.shared.core.phase.WrapUp? && s.shared.core.turns + 1 >= st.maxTurnsPerPhase
  }

  // A phase_complete in WRAP_UP gets past the gate.
  predicate CompletesEnd(s: State, a: Action) {
    a.Proceed? && a.i < |s.handlers| && s.handlers[a.i].tool.PhaseComplete? && s.shared.core.phase.WrapUp?
  }

  // close() is called exactly by the end of the conversation, an accepted automatic REFER, a successful
  // escalate_to_agent and the operator. Once over, only those that hold the session themselves still call it.
  lemma ClosesExactly(s: State, a: Action, st: Settings)
    requires Step(s, a, st).Some?
    ensures Step(s, a, st).value.shared.closing <==>
      || s.shared.closing
      || HearsEnd(s, a, st)
      || (a.DispatchReturns? && a.ok && a.i < |s.handlers| && s.handlers[a.i].tool.EscalateToAgent?)
      || (!s.shared.over && (CompletesEnd(s, a) || (a.ReferReturns? && a.ok) || a.OperatorActs?))
  {
    hide DispatchAllowed, ToolList, OverLimit, ServerStep, NextPhase;
    match a
    case Receive(d) => ReceivedCloses(s, d, st);
    case Proceed(i) => ProceededCloses(s.shared, s.handlers[i], st);
    case DispatchReturns(i, ok) => DispatchedCloses(s.shared, s.handlers[i], ok, st);
    case Disconnect(_) => ServerCloses(s.shared, a);
    case _ => OtherCloses(s, a, st);
  }

  lemma ReceivedCloses(s: State, d: Delivery, st: Settings)
    requires ReceiveStep(s, d, st).Some?
    ensures ReceiveStep(s, d, st).value.shared.closing <==> s.shared.closing || HearsEnd(s, Receive(d), st)
  {
    hide ToolList, OverLimit, NextPhase;
  }

  lemma ProceededCloses(g: Shared, h: Handler, st: Settings)
    ensures Proceeded(g, h, st).shared.closing <==>
      g.closing || (!g.over && h.tool.PhaseComplete? && g.core.phase.WrapUp?)
  {
    hide DispatchAllowed, ToolList, NextPhase;
  }

  lemma DispatchedCloses(g: Shared, h: Handler, ok: bool, st: Settings)
    requires h.pc.Dispatching?
    ensures Dispatched(g, h, ok, st).shared.closing <==> g.closing || (ok && h.tool.EscalateToAgent?)
  {
    hide OverLimit;
  }

  lemma ServerCloses(g: Shared, a: Action)
    ensures ServerStep(g, a).Some? ==> ServerStep(g, a).value.closing == g.closing
  {
  }

  lemma ResumedKeepsClosing(g: Shared, pc: Pc, isLoop: bool, replies: bool, d: Delivery, st: Settings)
    requires Resumed(g, pc, isLoop, replies, d, st).Some?
    ensures Resumed(g, pc, isLoop, replies, d, st).value.shared.closing == g.closing
  {
    hide Apply;
  }

  lemma OtherCloses(s: State, a: Action, st: Settings)
    requires Step(s, a, st).Some? && !a.Receive? && !a.Proceed? && !a.DispatchReturns?
    ensures Step(s, a, st).value.shared.closing <==>
      s.shared.closing || (!s.shared.over && ((a.ReferReturns? && a.ok) || a.OperatorActs?))
  {
    hide Apply, DispatchAllowed, ServerStep, Resumed, ReceiveStep, Proceeded, Dispatched;
    if a.Resume? {
      ResumedKeepsClosing(s.shared, PcOf(s, a.who), a.who.Loop?, Replies(s, a.who), a.d, st);
    }
    if ServerStep(s.shared, a).Some? {
      ServerCloses(s.shared, a);
    }
  }

  lemma ReceivedKeepsOver(g: Shared, m: Inbound, d: Delivery, st: Settings)
    ensures Received(g, m, d, st).shared.over == g.over
  {
    hide Apply;
  }

  lemma ResumedKeepsOver(g: Shared, pc: Pc, isLoop: bool, replies: bool, d: Delivery, st: Settings)
    requires Resumed(g, pc, isLoop, replies, d, st).Some?
    ensures Resumed(g, pc, isLoop, replies, d, st).value.shared.over == g.over
  {
    hide Apply;
  }

  lemma ProceededKeepsOver(g: Shared, h: Handler, st: Settings)
    ensures Proceeded(g, h, st).shared.over == g.over
  {
    hide Apply, DispatchAllowed;
  }

  // A session that is over stays over.
  lemma OverStays(s: State, a: Action, st: Settings)
    requires Step(s, a, st).Some? && s.shared.over
    ensures Step(s, a, st).value.shared.over
  {
    hide Apply, DispatchAllowed, Received, Resumed, Proceeded;
    var g := s.shared;
    match a
    case Receive(d) => ReceivedKeepsOver(g.(inbox := g.inbox[1..]), g.inbox[0], d, st);
    case Proceed(i) => ProceededKeepsOver(g, s.handlers[i], st);
    case Resume(who, d) => ResumedKeepsOver(g, PcOf(s, who), who.Loop?, Replies(s, who), d, st);
    case _ =>
  }

  // An ended conversation has closed its session, unless it was over already.
  ghost predicate EndCloses(s: State) {
    EndRequested in s.shared.core.history ==> s.shared.closing || s.shared.over
  }

  lemma StepKeepsEndCloses(s: State, a: Action, st: Settings)
    requires Step(s, a, st).Some? && EndCloses(s)
    ensures EndCloses(Step(s, a, st).value)
  {
    hide Step, Apply;
    StepIsEvent(s, a, st);
    ClosesExactly(s, a, st);
    if s.shared.over {
      OverStays(s, a, st);
    }
    if EventOf(s, a).Some? {
      EndsExactly(s.shared.core, EventOf(s, a).value, st);
    }
  }

  // An accepted REFER of an escalation leaves the session closing or over.
  lemma AcceptedReferCloses(s: State, who: Who, st: Settings)
    requires Step(s, ReferReturns(who, true), st).Some?
    ensures var t := Step(s, ReferReturns(who, true), st).value.shared; t.closing || t.over
  {
    hide Step;
    ClosesExactly(s, ReferReturns(who, true), st);
    if s.shared.over {
      OverStays(s, ReferReturns(who, true), st);
    }
  }

  // A connection lost after close() is never opened again.
  lemma ClosedStaysLost(s: State, a: Action, st: Settings)
    requires Step(s, a, st).Some?
    ensures a.Disconnect? && s.shared.closing ==> Step(s, a, st).value.shared.over
    ensures s.shared.over ==> Step(s, a, st).value.shared.over && !a.Rejoin?
  {
    hide Apply, DispatchAllowed, ReceiveStep, Received, Resumed, Proceeded, Dispatched, Referred, Released;
    if s.shared.over {
      OverStays(s, a, st);
    }
  }
}
