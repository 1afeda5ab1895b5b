// One call's session as a step system: the WebSocket event loop, any number of tool
// handlers, the response gate, the tool lock and the remote server. An action runs one task
// from one suspension point to the next.
module SessionProtocol {
  import opened Models
  import opened ToolCatalog
  import opened PhaseMachine

  // What became of one socket send: written, raised, or skipped because the session is over.
  datatype Delivery = Delivered | Refused | NoSocket

  datatype Server = Resting | Requested | Responding

  datatype Inbound =
    | ResponseCreated
    | ResponseDone
    | FunctionCall(tool: Tool, category: Option<string>)
    | CallerTurn(frustrated: bool)
    | SessionReady

  // Where a task is suspended.
  datatype Pc =
    | AwaitLock                 // handlers only
    | AwaitGate                 // handlers only
    | Woken                     // handlers only: released by the gate, not yet running
    | SendOutput                // handlers only
    | Dispatching(allowed: bool, retried: bool)  // handlers only
    | SendUpdate
    | SendCreate(d: Delivery)
    | EscSay
    | EscSilent                 // escalating after the session is gone
    | EscCreate(d: Delivery)
    | EscAwait
    | EscRefer
    | Closing(thenOutput: bool)
    | Done                      // the loop is free for the next event; a handler has ended

  datatype Handler = Handler(tool: Tool, category: Option<string>, duplicate: bool, pc: Pc)

  // Everything the tasks share.
  datatype Shared = Shared(
    core: Core,
    ready: bool,                // _response_ready
    greeted: bool,              // _greeting_triggered
    closing: bool,              // _closing_intentionally
    connected: bool,
    over: bool,                 // connect() has left its loop: no session, no socket
    inbox: seq<Inbound>,
    server: Server,
    creates: seq<bool>)         // one entry per response.create: was a response outstanding?

  datatype State = State(
    shared: Shared,
    lock: Option<nat>,          // holder of _tool_lock
    handlers: seq<Handler>,
    loop: Pc)

  datatype Who = Loop | Task(i: nat)

  datatype Action =
    | ServerStarts
    | ServerStartsUnasked
    | ServerCalls(tool: Tool, category: Option<string>)
    | ServerFinishes
    | CallerSpeaks(frustrated: bool)
    | ServerReady
    | Receive(d: Delivery)
    | Resume(who: Who, d: Delivery)
    | Wake(who: Who)
    | Timeout(who: Who)
    | Acquire(i: nat)
    | Proceed(i: nat)
    | HandlerDies(i: nat)       // its arguments were no object
    | Retry(i: nat)
    | DispatchReturns(i: nat, ok: bool)
    | ReferReturns(who: Who, ok: bool)
    | Disconnect(dropsResponse: bool)
    | Rejoin
    | EndConnection
    | OperatorActs(transfers: bool)  // hangs up or transfers from the dashboard

  // What one task's step does: to the shared state, and where it suspends next.
  datatype Move = Move(shared: Shared, pc: Pc)

  // ---- Sending and waiting ----

  predicate Possible(g: Shared, d: Delivery) {
    (d.NoSocket? <==> g.over) && (d.Delivered? ==> g.connected)
  }

  // send_event(response.create) up to its suspension: the gate is shut before the write.
  function BeginCreate(g: Shared, d: Delivery): Shared {
    g.(ready := false,
       creates := g.creates + [!g.server.Resting?],
       server := if d.Delivered? && g.server.Resting? then Requested else g.server)
  }

  // ... and after it: a failed write opens the gate again.
  function EndCreate(g: Shared, d: Delivery): Shared {
    if d.Refused? then g.(ready := true) else g
  }

  function Deliver(g: Shared, m: Inbound): Shared {
    if g.connected then g.(inbox := g.inbox + [m]) else g
  }

  function Observe(g: Shared, e: Event, st: Settings): Shared {
    g.(core := Apply(g.core, e, st).core)
  }

  // check_escalation has claimed the call: announce it, or go straight to REFER without a session.
  function Escalating(g: Shared): Move {
    Move(g, if g.over then EscSilent else EscSay)
  }

  // ---- The steps of one task ----

  // The loop handles the oldest server event other than a function call.
  function Received(g: Shared, m: Inbound, d: Delivery, st: Settings): Move {
    match m
    case ResponseCreated => Move(g.(ready := false), Done)
    case ResponseDone =>
      var signal := Apply(g.core, ResponseCompleted, st).signal;
      var t := Observe(g.(ready := true), ResponseCompleted, st);
      if signal.PhaseEntered? then Move(t, SendUpdate)
      else if signal.SessionEnded? then Move(t.(closing := true), Closing(false))
      else Move(t, Done)
    case FunctionCall(tool, category) => Move(g, Done)
    case CallerTurn(frustrated) =>
      if !frustrated then Move(g, Done)
      else
        var t := Observe(g, CallerFrustrated, st);
        if Apply(g.core, CallerFrustrated, st).signal.EscalationStarted? then Escalating(t) else Move(t, Done)
    case SessionReady =>
      if g.greeted then Move(g, Done) else Move(BeginCreate(g.(greeted := true), d), SendCreate(d))
  }

  // A pending send or close returns. `replies` says the handler follows its output by a response.create.
  function Resumed(g: Shared, pc: Pc, isLoop: bool, replies: bool, d: Delivery, st: Settings): Option<Move> {
    match pc
    case SendUpdate => Some(Move(g, if isLoop then Done else SendOutput))
    case SendOutput => Some(if replies then Move(BeginCreate(g, d), SendCreate(d)) else Move(g, Done))
    case SendCreate(sent) => Some(Move(EndCreate(g, sent), Done))
    case EscSilent => Some(Move(Observe(g, AutoReferIssued, st), EscRefer))
    case EscSay => Some(Move(BeginCreate(g, d), EscCreate(d)))
    case EscCreate(sent) => Some(Move(EndCreate(g, sent), EscAwait))
    case Closing(thenOutput) => Some(Move(g, if thenOutput then SendOutput else Done))
    case _ => None
  }

  // wait_for_response_done returns, released by the gate or by its timeout.
  function Released(g: Shared, pc: Pc, st: Settings): Option<Move> {
    match pc
    case AwaitGate => Some(Move(g, Woken))
    case EscAwait => Some(Move(Observe(g, AutoReferIssued, st), EscRefer))
    case _ => None
  }

  predicate DispatchAllowed(c: Core, tool: Tool) {
    c.call.None? || GuardAllows(Canonical(tool), c.call.value.phase)
  }

  // The handler is past the gate.
  function Proceeded(g: Shared, h: Handler, st: Settings): Move {
    match h.tool
    case PhaseComplete =>
      var t := Observe(g, PhaseCompleted(h.category), st);
      if Apply(g.core, PhaseCompleted(h.category), st).signal.PhaseEntered? then Move(t, SendUpdate)
      else if g.over then Move(t, SendOutput)
      else Move(t.(closing := true), Closing(true))
    case ReportNewIssue =>
      Move(Observe(g, NewIssue, st),
           if Apply(g.core, NewIssue, st).signal.PhaseEntered? then SendUpdate else SendOutput)
    case WaitForUser => Move(g, SendOutput)
    case _ =>
      Move(g, if h.duplicate then SendOutput else Dispatching(DispatchAllowed(g.core, h.tool), false))
  }

  function ToolEvent(h: Handler, ok: bool): Event
    requires h.pc.Dispatching?
  {
    if ok then ToolSucceeded(h.tool, h.pc.allowed) else ToolFailed(h.tool)
  }

  // The tool's result, timeout or exception is in.
  function Dispatched(g: Shared, h: Handler, ok: bool, st: Settings): Move
    requires h.pc.Dispatching?
  {
    var t := Observe(g, ToolEvent(h, ok), st);
    if Apply(g.core, ToolEvent(h, ok), st).signal.EscalationStarted? then Escalating(t)
    else if h.tool.EscalateToAgent? && ok then Move(t.(closing := true), Closing(false))
    else Move(t, SendOutput)
  }

  // The REFER request of an automatic escalation returns or raises. An exception ends a handler
  // task; in the event loop it ends the connection.
  function Referred(g: Shared, isLoop: bool, ok: bool, st: Settings): Move {
    if !ok then Move(if isLoop then g.(over := true, connected := false, inbox := []) else g, Done)
    else
      var t := Observe(g, ReferAccepted, st);
      if g.over then Move(t, Done) else Move(t.(closing := true), Closing(false))
  }

  function OperatorEvent(transfers: bool): Event {
    if transfers then ReferAccepted else HungUp
  }

  // The operator's request has succeeded: the record is written, and a live session is closed.
  function Overruled(g: Shared, transfers: bool, st: Settings): Shared {
    Observe(g, OperatorEvent(transfers), st).(closing := g.closing || !g.over)
  }

  // ---- Steps of the system ----

  predicate Exists(s: State, who: Who) {
    who.Task? ==> who.i < |s.handlers|
  }

  function PcOf(s: State, who: Who): Pc
    requires Exists(s, who)
  {
    if who.Loop? then s.loop else s.handlers[who.i].pc
  }

  // Only phase_complete's and wait_for_user's siblings differ here: wait_for_user sends no response.create.
  predicate Replies(s: State, who: Who)
    requires Exists(s, who)
  {
    who.Task? && !s.handlers[who.i].tool.WaitForUser?
  }

  // The task suspends again; a handler that has ended leaves the tool lock.
  function Commit(s: State, who: Who, m: Move): State
    requires Exists(s, who)
  {
    if who.Loop? then s.(shared := m.shared, loop := m.pc)
    else State(
           m.shared,
           if m.pc.Done? then None else s.lock,
           s.handlers[who.i := s.handlers[who.i].(pc := m.pc)],
           s.loop)
  }

  function TryCommit(s: State, who: Who, m: Option<Move>): Option<State>
    requires Exists(s, who)
  {
    if m.Some? then Some(Commit(s, who, m.value)) else None
  }

  function ReceiveStep(s: State, d: Delivery, st: Settings): Option<State> {
    var g := s.shared;
    if !(s.loop.Done? && g.connected && g.inbox != [] && Possible(g, d)) then None
    else
      var m := g.inbox[0];
      var t := Commit(s, Loop, Received(g.(inbox := g.inbox[1..]), m, d, st));
      Some(if m.FunctionCall? then t.(handlers := s.handlers + [Handler(m.tool, m.category, false, AwaitLock)]) else t)
  }

  function AcquireStep(s: State, i: nat): Option<State> {
    if !(i < |s.handlers| && s.handlers[i].pc.AwaitLock? && s.lock.None?) then None
    else
      var h := s.handlers[i];
      var duplicate := IsOneCall(h.tool) && h.tool in s.shared.core.called;
      Some(s.(lock := Some(i), handlers := s.handlers[i := h.(duplicate := duplicate, pc := AwaitGate)]))
  }

  function ServerStep(g: Shared, a: Action): Option<Shared> {
    match a
    case ServerStarts =>
      if g.server.Requested? then Some(Deliver(g.(server := Responding), ResponseCreated)) else None
    case ServerStartsUnasked =>
      if g.server.Resting? && !g.over then Some(Deliver(g.(server := Responding), ResponseCreated)) else None
    case ServerCalls(tool, category) =>
      if g.server.Responding? then Some(Deliver(g, FunctionCall(tool, category))) else None
    case ServerFinishes =>
      if g.server.Responding? then Some(Deliver(g.(server := Resting), ResponseDone)) else None
    case CallerSpeaks(frustrated) => Some(Deliver(g, CallerTurn(frustrated)))
    case ServerReady => Some(Deliver(g, SessionReady))
    case Disconnect(dropsResponse) =>
      if g.connected then
        // connect() asks whether the close was intended at this moment only, not after its back-off sleep.
        Some(g.(connected := false, over := g.over || g.closing, inbox := [],
                server := if dropsResponse then Resting else g.server))
      else None
    case EndConnection =>
      if !g.over then Some(g.(over := true, connected := false, inbox := [])) else None
    case _ => None
  }

  function Step(s: State, a: Action, st: Settings): Option<State> {
    match a
    case Receive(d) => ReceiveStep(s, d, st)
    case Resume(who, d) =>
      if !Exists(s, who) || !Possible(s.shared, d) then None
      else TryCommit(s, who, Resumed(s.shared, PcOf(s, who), who.Loop?, Replies(s, who), d, st))
    case Wake(who) =>
      if !Exists(s, who) || !s.shared.ready then None
      else TryCommit(s, who, Released(s.shared, PcOf(s, who), st))
    case Timeout(who) =>
      if !Exists(s, who) then None
      else TryCommit(s, who, Released(s.shared.(ready := true), PcOf(s, who), st))
    case Acquire(i) => AcquireStep(s, i)
    case Proceed(i) =>
      if !(i < |s.handlers| && s.handlers[i].pc.Woken?) then None
      else Some(Commit(s, Task(i), Proceeded(s.shared, s.handlers[i], st)))
    case HandlerDies(i) =>
      // phase_complete and report_new_issue read their arguments past the gate and outside any handler of
      // exceptions: arguments that parse to something other than an object end the task on the spot.
      if !(i < |s.handlers| && s.handlers[i].pc.Woken?
           && (s.handlers[i].tool.PhaseComplete? || s.handlers[i].tool.ReportNewIssue?)) then None
      else Some(Commit(s, Task(i), Move(s.shared, Done)))
    case Retry(i) =>
      // A transient failure dispatches once more, past the guard again.
      if !(i < |s.handlers| && s.handlers[i].pc == Dispatching(true, false)) then None
      else
        var again := DispatchAllowed(s.shared.core, s.handlers[i].tool);
        Some(Commit(s, Task(i), Move(s.shared, Dispatching(again, true))))
    case DispatchReturns(i, ok) =>
      if !(i < |s.handlers| && s.handlers[i].pc.Dispatching?) then None
      else Some(Commit(s, Task(i), Dispatched(s.shared, s.handlers[i], ok, st)))
    case ReferReturns(who, ok) =>
      if !Exists(s, who) || !PcOf(s, who).EscRefer? then None
      else Some(Commit(s, who, Referred(s.shared, who.Loop?, ok, st)))
    case Rejoin =>
      var g := s.shared;
      if !(s.loop.Done? && !g.connected && !g.over) then None
      else Some(Commit(s, Loop, Move(Observe(g.(connected := true), PhaseMachine.Reconnect, st), SendUpdate)))
    case OperatorActs(transfers) => Some(s.(shared := Overruled(s.shared, transfers, st)))
    case _ =>
      // The remote side and the network. The loop notices a lost connection between two events.
      if (a.Disconnect? || a.EndConnection?) && !s.loop.Done? then None
      else
        var g := ServerStep(s.shared, a);
        if g.Some? then Some(s.(shared := g.value)) else None
  }

  // The first connection is open and GREETING has been entered.
  function Init(call: Option<CallRecord>): State {
    State(Shared(Start(call), true, false, false, true, false, [], Resting, []), None, [], SendUpdate)
  }

  // Any stretch of a session: the actions taken, and the states before, between and after them.
  ghost predicate IsPath(states: seq<State>, actions: seq<Action>, st: Settings) {
    && |states| == |actions| + 1
    && forall i {:trigger actions[i]} :: 0 <= i < |actions| ==> Step(states[i], actions[i], st) == Some(states[i + 1])
  }

  // A run: a path from the opening of the session.
  ghost predicate IsRun(call: Option<CallRecord>, states: seq<State>, actions: seq<Action>, st: Settings) {
    IsPath(states, actions, st) && states[0] == Init(call)
  }

  function Final(states: seq<State>): State
    requires states != []
  {
    states[|states| - 1]
  }

  // ---- The conversation sees a sequence of events ----

  // The conversation event an action carries, if any.
  function EventOf(s: State, a: Action): Option<Event> {
    match a
    case Receive(d) =>
      if s.shared.inbox == [] then None
      else if s.shared.inbox[0].ResponseDone? then Some(ResponseCompleted)
      else if s.shared.inbox[0] == CallerTurn(true) then Some(CallerFrustrated)
      else None
    case Resume(who, d) => if Exists(s, who) && PcOf(s, who).EscSilent? then Some(AutoReferIssued) else None
    case Wake(who) => if Exists(s, who) && PcOf(s, who).EscAwait? then Some(AutoReferIssued) else None
    case Timeout(who) => if Exists(s, who) && PcOf(s, who).EscAwait? then Some(AutoReferIssued) else None
    case Proceed(i) =>
      if i >= |s.handlers| then None
      else if s.handlers[i].tool.PhaseComplete? then Some(PhaseCompleted(s.handlers[i].category))
      else if s.handlers[i].tool.ReportNewIssue? then Some(NewIssue)
      else None
    case DispatchReturns(i, ok) =>
      if i >= |s.handlers| || !s.handlers[i].pc.Dispatching? then None
      else Some(ToolEvent(s.handlers[i], ok))
    case ReferReturns(who, ok) => if ok then Some(ReferAccepted) else None
    case Rejoin => Some(PhaseMachine.Reconnect)
    case OperatorActs(transfers) => Some(OperatorEvent(transfers))
    case _ => None
  }

  function Next(c: Core, e: Option<Event>, st: Settings): Core {
    if e.Some? then Apply(c, e.value, st).core else c
  }

  // The moves of one task, seen by the conversation.
  lemma ReceivedIsEvent(s: State, d: Delivery, st: Settings)
    requires ReceiveStep(s, d, st).Some?
    ensures ReceiveStep(s, d, st).value.shared.core == Next(s.shared.core, EventOf(s, Receive(d)), st)
  {
    hide Apply;
  }

  lemma ProceededIsEvent(s: State, i: nat, st: Settings)
    requires i < |s.handlers|
    ensures Proceeded(s.shared, s.handlers[i], st).shared.core == Next(s.shared.core, EventOf(s, Proceed(i)), st)
  {
    hide Apply, DispatchAllowed;
  }

  lemma ResumedIsEvent(g: Shared, pc: Pc, isLoop: bool, replies: bool, d: Delivery, st: Settings)
    requires Resumed(g, pc, isLoop, replies, d, st).Some?
    ensures Resumed(g, pc, isLoop, replies, d, st).value.shared.core ==
      Next(g.core, if pc.EscSilent? then Some(AutoReferIssued) else None, st)
  {
    hide Apply;
  }

  // Every run of the protocol is, for the conversation, the sequence of its actions' events.
  lemma StepIsEvent(s: State, a: Action, st: Settings)
    requires Step(s, a, st).Some?
    ensures Step(s, a, st).value.shared.core == Next(s.shared.core, EventOf(s, a), st)
  {
    hide Apply, DispatchAllowed, Proceeded, ReceiveStep, Received, Resumed;
    match a
    case Receive(d) => ReceivedIsEvent(s, d, st);
    case Resume(who, d) =>
      ResumedIsEvent(s.shared, PcOf(s, who), who.Loop?, Replies(s, who), d, st);
    case Proceed(i) => ProceededIsEvent(s, i, st);
    case _ =>
  }

  lemma StepKeepsHealthy(s: State, a: Action, st: Settings)
    requires Step(s, a, st).Some? && Healthy(s.shared.core, st)
    ensures Healthy(Step(s, a, st).value.shared.core, st)
  {
    hide Apply, Healthy, Step;
    StepIsEvent(s, a, st);
    if EventOf(s, a).Some? {
      StepKeepsHealth(s.shared.core, EventOf(s, a).value, st);
    }
  }
}
