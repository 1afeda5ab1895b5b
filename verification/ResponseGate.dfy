// The response gate: when does every response.create meet a server with no response outstanding?
module ResponseGate {
  import opened Models
  import opened PhaseMachine
  import opened SessionProtocol
  import opened ProtocolSafety

  // The assumptions on one action: no wait times out, the server starts no response by itself, and
  // a frustrated caller turn does not tip the call into escalation.
  predicate Disciplined(s: State, a: Action, st: Settings) {
    && !a.Timeout?
    && !a.ServerStartsUnasked?
    && (a.Receive? && s.shared.inbox != [] && s.shared.inbox[0] == CallerTurn(true) ==>
          !Apply(s.shared.core, CallerFrustrated, st).signal.EscalationStarted?)
  }

  // Lifecycle messages of responses still waiting for the loop.
  function Lifecycle(inbox: seq<Inbound>): seq<Inbound> {
    if inbox == [] then []
    else (if inbox[0].ResponseCreated? || inbox[0].ResponseDone? then [inbox[0]] else []) + Lifecycle(inbox[1..])
  }

  lemma {:induction false} LifecycleSnoc(inbox: seq<Inbound>, m: Inbound)
    ensures Lifecycle(inbox + [m]) ==
      Lifecycle(inbox) + (if m.ResponseCreated? || m.ResponseDone? then [m] else [])
  {
    if inbox == [] {
      assert [] + [m] == [m];
    } else {
      LifecycleSnoc(inbox[1..], m);
      assert (inbox + [m])[1..] == inbox[1..] + [m];
    }
  }

  // Past the gate with a response.create still to send.
  predicate PastGate(pc: Pc) {
    pc.Woken? || pc.SendUpdate? || pc.SendOutput? || pc.Dispatching? || pc == Closing(true) || pc.EscSay?
  }

  predicate FailedCreate(pc: Pc) {
    pc == SendCreate(Refused) || pc == EscCreate(Refused)
  }

  // The gate is open only while the server rests and the loop has heard everything about past responses.
  predicate GateSound(g: Shared) {
    var pending := Lifecycle(g.inbox);
    && (!g.connected ==> g.inbox == [])
    && (match g.server
        case Requested => !g.ready && pending == []
        case Responding => !g.ready && (pending == [] || pending == [ResponseCreated])
        case Resting =>
          pending == []
          || (!g.ready && (pending == [ResponseDone] || pending == [ResponseCreated, ResponseDone])))
  }

  predicate AtRest(g: Shared) {
    g.server.Resting? && Lifecycle(g.inbox) == []
  }

  ghost predicate GateHolds(s: State) {
    && GateSound(s.shared)
    && (forall i :: 0 <= i < |s.handlers| ==>
          && (PastGate(s.handlers[i].pc) ==> s.shared.ready)
          && (FailedCreate(s.handlers[i].pc) ==> !s.shared.ready && AtRest(s.shared)))
    && (FailedCreate(s.loop) ==> !s.shared.ready && AtRest(s.shared))
    && (!s.shared.greeted ==>
          && s.handlers == [] && s.shared.ready && AtRest(s.shared)
          && (forall m :: m in s.shared.inbox ==> !m.FunctionCall?))
    && (s.loop.Done? || s.loop.SendUpdate? || s.loop.SendCreate? || s.loop == Closing(false))
    && (s.loop.SendCreate? ==> s.handlers == [])
    && (forall i :: 0 <= i < |s.shared.creates| ==> !s.shared.creates[i])
  }

  lemma ServerKeepsGate(s: State, a: Action, st: Settings)
    requires Step(s, a, st).Some? && Disciplined(s, a, st) && LockExcludes(s) && GateHolds(s)
    requires a.ServerStarts? || a.ServerCalls? || a.ServerFinishes? || a.CallerSpeaks? || a.ServerReady?
             || a.Disconnect? || a.EndConnection?
    ensures GateHolds(Step(s, a, st).value)
  {
    LifecycleSnoc(s.shared.inbox, ResponseCreated);
    LifecycleSnoc(s.shared.inbox, ResponseDone);
    LifecycleSnoc(s.shared.inbox, SessionReady);
    if a.ServerCalls? {
      LifecycleSnoc(s.shared.inbox, FunctionCall(a.tool, a.category));
    }
    if a.CallerSpeaks? {
      LifecycleSnoc(s.shared.inbox, CallerTurn(a.frustrated));
    }
  }

  // What handling the oldest message must satisfy.
  ghost predicate GoodReceipt(g: Shared, m: Move) {
    var t := m.shared;
    && GateSound(t) && g.inbox != [] && t.inbox == g.inbox[1..] && t.connected == g.connected
    && (forall i :: 0 <= i < |t.creates| ==> !t.creates[i])
    && (g.ready && g.greeted ==> t.ready)
    && (g.greeted && !g.ready && AtRest(g) ==> !t.ready && AtRest(t))
    && (g.greeted ==> t.greeted)
    && (!t.greeted ==> t.ready && AtRest(t))
    && (FailedCreate(m.pc) ==> !t.ready && AtRest(t))
    && (m.pc.Done? || m.pc.SendUpdate? || m.pc == Closing(false) || (m.pc.SendCreate? && !g.greeted))
  }

  lemma LifecycleCons(inbox: seq<Inbound>)
    requires inbox != []
    ensures if inbox[0].ResponseCreated? || inbox[0].ResponseDone?
            then Lifecycle(inbox) != [] && Lifecycle(inbox)[0] == inbox[0]
              && Lifecycle(inbox)[1..] == Lifecycle(inbox[1..])
            else Lifecycle(inbox) == Lifecycle(inbox[1..])
  {
  }

  // response.created and response.done: the gate is shut while they are on their way.
  lemma LifecycleIsGood(g: Shared, d: Delivery, st: Settings)
    requires GateSound(g) && g.inbox != [] && (g.inbox[0].ResponseCreated? || g.inbox[0].ResponseDone?)
    requires forall i :: 0 <= i < |g.creates| ==> !g.creates[i]
    requires !g.greeted ==> g.ready
    ensures GoodReceipt(g, Received(g.(inbox := g.inbox[1..]), g.inbox[0], d, st))
  {
    hide Apply, Lifecycle;
    LifecycleCons(g.inbox);
  }

  lemma OtherIsGood(s: State, d: Delivery, st: Settings)
    requires var g := s.shared;
      && GateSound(g) && g.inbox != [] && !g.inbox[0].ResponseCreated? && !g.inbox[0].ResponseDone?
      && (forall i :: 0 <= i < |g.creates| ==> !g.creates[i])
      && (!g.greeted ==> g.ready && AtRest(g))
    requires Disciplined(s, Receive(d), st)
    ensures var g := s.shared; GoodReceipt(g, Received(g.(inbox := g.inbox[1..]), g.inbox[0], d, st))
  {
    hide Apply, Lifecycle;
    LifecycleCons(s.shared.inbox);
  }

  lemma LoopKeepsGate(s: State, d: Delivery, st: Settings)
    requires ReceiveStep(s, d, st).Some? && Disciplined(s, Receive(d), st) && GateHolds(s)
    ensures GateHolds(ReceiveStep(s, d, st).value)
  {
    hide Apply, GateSound, AtRest, Received, Disciplined;
    var g := s.shared;
    if g.inbox[0].ResponseCreated? || g.inbox[0].ResponseDone? {
      LifecycleIsGood(g, d, st);
    } else {
      OtherIsGood(s, d, st);
    }
    var t := Received(g.(inbox := g.inbox[1..]), g.inbox[0], d, st).shared;
    assert forall m :: m in t.inbox ==> m in g.inbox;
  }

  // What the acting handler's move must satisfy.
  ghost predicate GoodMove(g: Shared, m: Move) {
    && GateSound(m.shared)
    && m.shared.greeted == g.greeted && m.shared.inbox == g.inbox
    && (forall i :: 0 <= i < |m.shared.creates| ==> !m.shared.creates[i])
    && (PastGate(m.pc) ==> m.shared.ready)
    && (FailedCreate(m.pc) ==> !m.shared.ready && AtRest(m.shared))
  }

  ghost predicate GoodTask(g: Shared, pc: Pc) {
    && GateSound(g)
    && (forall i :: 0 <= i < |g.creates| ==> !g.creates[i])
    && (PastGate(pc) ==> g.ready)
    && (FailedCreate(pc) ==> !g.ready && AtRest(g))
  }

  lemma ResumedIsGood(g: Shared, pc: Pc, replies: bool, d: Delivery, st: Settings)
    requires GoodTask(g, pc) && Resumed(g, pc, false, replies, d, st).Some?
    ensures Holds(pc) && GoodMove(g, Resumed(g, pc, false, replies, d, st).value)
  {
    hide Apply, Lifecycle;
  }

  lemma ReleasedIsGood(g: Shared, pc: Pc, st: Settings)
    requires GoodTask(g, pc) && g.ready && Released(g, pc, st).Some?
    ensures Holds(pc) && GoodMove(g, Released(g, pc, st).value)
  {
    hide Apply, Lifecycle;
  }

  lemma ProceededIsGood(g: Shared, h: Handler, st: Settings)
    requires GoodTask(g, h.pc) && h.pc.Woken?
    ensures GoodMove(g, Proceeded(g, h, st))
  {
    hide Apply, Lifecycle, DispatchAllowed;
  }

  lemma DispatchedIsGood(g: Shared, h: Handler, ok: bool, st: Settings)
    requires GoodTask(g, h.pc) && h.pc.Dispatching?
    ensures GoodMove(g, Dispatched(g, h, ok, st))
  {
    hide Apply, Lifecycle;
  }

  lemma ReferredIsGood(g: Shared, ok: bool, st: Settings)
    requires GoodTask(g, EscRefer)
    ensures GoodMove(g, Referred(g, false, ok, st))
  {
    hide Apply, Lifecycle;
  }

  // A good move of the lock's holder keeps the gate.
  lemma CommitKeepsGate(s: State, i: nat, m: Move)
    requires LockExcludes(s) && GateHolds(s) && i < |s.handlers| && Holds(s.handlers[i].pc)
    requires GoodMove(s.shared, m)
    ensures GateHolds(Commit(s, Task(i), m))
  {
    hide GateSound, AtRest;
  }

  lemma TaskKeepsGate(s: State, a: Action, st: Settings, i: nat)
    requires Step(s, a, st).Some? && Disciplined(s, a, st) && LockExcludes(s) && GateHolds(s)
    requires Actor(a) == Some(Task(i)) && i < |s.handlers|
    ensures GateHolds(Step(s, a, st).value)
  {
    hide GateSound, AtRest, Resumed, Released, Proceeded, Dispatched, Referred, DispatchAllowed;
    var g, h := s.shared, s.handlers[i];
    match a
    case Resume(who, d) =>
      ResumedIsGood(g, h.pc, Replies(s, who), d, st);
      CommitKeepsGate(s, i, Resumed(g, h.pc, false, Replies(s, who), d, st).value);
    case Wake(who) =>
      ReleasedIsGood(g, h.pc, st);
      CommitKeepsGate(s, i, Released(g, h.pc, st).value);
    case Proceed(_) =>
      ProceededIsGood(g, h, st);
      CommitKeepsGate(s, i, Proceeded(g, h, st));
    case HandlerDies(_) =>
      CommitKeepsGate(s, i, Move(g, Done));
    case DispatchReturns(_, ok) =>
      DispatchedIsGood(g, h, ok, st);
      CommitKeepsGate(s, i, Dispatched(g, h, ok, st));
    case ReferReturns(who, ok) =>
      ReferredIsGood(g, ok, st);
      CommitKeepsGate(s, i, Referred(g, false, ok, st));
    case Retry(_) =>
      CommitKeepsGate(s, i, Move(g, Dispatching(DispatchAllowed(g.core, h.tool), true)));
    case Acquire(_) =>
  }

  // The loop's own suspensions.
  lemma LoopResumesGate(s: State, a: Action, st: Settings)
    requires Step(s, a, st).Some? && Disciplined(s, a, st) && GateHolds(s)
    requires Actor(a) == Some(Loop) && !a.Receive?
    ensures GateHolds(Step(s, a, st).value)
  {
    hide Apply, Lifecycle;
  }

  lemma OperatorKeepsGate(s: State, transfers: bool, st: Settings)
    requires GateHolds(s)
    ensures GateHolds(s.(shared := Overruled(s.shared, transfers, st)))
  {
    hide Apply;
  }

  lemma StepKeepsGate(s: State, a: Action, st: Settings)
    requires Step(s, a, st).Some? && Disciplined(s, a, st) && LockExcludes(s) && GateHolds(s)
    ensures GateHolds(Step(s, a, st).value)
  {
    hide Apply, ReceiveStep, GateHolds, LockExcludes;
    if a.Receive? {
      LoopKeepsGate(s, a.d, st);
    } else if Actor(a) == Some(Loop) {
      LoopResumesGate(s, a, st);
    } else if Actor(a).Some? {
      TaskKeepsGate(s, a, st, Actor(a).value.i);
    } else if a.OperatorActs? {
      OperatorKeepsGate(s, a.transfers, st);
    } else {
      ServerKeepsGate(s, a, st);
    }
  }
}
