# Verified model of the SIP voice agent

The system answers phone calls with a speech model. One `SessionManager` per call drives a WebSocket to the
Realtime API, a `ConversationFSM` walks the caller through GREETING, VERIFY, TRIAGE, DIAGNOSE, RESOLVE and WRAP_UP,
and every function call of the model becomes an asyncio task in `tool_executor`. Calls, tokens, costs, logs and
failures live in an in-memory `StateStore`; an `EventBus` and a `WSManager` carry everything to the operators' dashboards.

This project models that behaviour in Dafny and proves what it keeps over whole runs. `dafny verify dfyconfig.toml`
verifies everything. Nothing was executed.

## How the model is built

- **One call's session** (`SessionProtocol`). A state holds what the tasks share (the conversation, `_response_ready`,
  `_greeting_triggered`, `_closing_intentionally`, the socket, the server) and a program counter per task: the event
  loop and any number of tool handlers. An action takes one task from one suspension point to the next; the network,
  the server, the caller, an operator and the language model act arbitrarily. `IsRun` links any sequence of
  actions with the states before, between and after them.
  The store's and the bus's locked sections contain no `await`, so the code between two suspension points is one step.
  `SessionEffects` says what every step does: where the acting task goes on, what moves the gate, the inbox and the
  connection, and that every call of a tool is taken up and answered.
- **The conversation** (`PhaseMachine`). FSM fields, the shared call record, the tool list last sent and a history of
  observations. `Apply` is the code between two suspension points for each kind of event; `StepIsEvent` shows that
  each action of the protocol is, for the conversation, one such event or none. Invariants proved for events
  therefore hold in every interleaving.
- **The objects** (`ConversationFsm`, `Registry`, `SessionLifecycle`, `EventDelivery`, `Transcripts`). The source's
  classes with their fields and the shared, mutable `Call`; every method is proved equal to the value-level operation
  the lemmas are about.
- **Bounded forms against full histories** (`Breaker`, `Budget`, `Admission`, `Ledger`, `LogPaging`, `EventDelivery`,
  `OrderedQuery`). Each deque, lazily reset counter, cursor or limited query is compared with the unbounded
  specification it stands for.
- **Text** (`CardScrub`, `PhoneIdentity`). Character classes are parameters constrained by a few laws, so the results
  cover the full Unicode tables the source's expressions use.

Times are integer ticks and costs are `real`. A socket send that raises is taken not to have delivered. A call may be
registered or absent from the store; the session protocol assumes its id is registered at most once
(`DuplicateRegistrationBreaksAgreement` says exactly what a second registration does). The model allows more
interleavings than asyncio does: any waiting task may take the free lock, a wait may time out at any moment, and
a session may reconnect any number of times (`ReconnectsAreBounded` gives the real limit of three), also after
`close()`, which `connect` looks at only when it notices the lost connection. A handler of phase_complete or
report_new_issue may also die past the gate, as it does on arguments that are no object.

## What the model shows about the code

Kept in every run: `SessionTheorems.PhaseStoreAndOfferAgree`, `OneCallToolsCompleteOncePerVisit`, `HandlersAreSerial`,
`AtMostOneAutomaticRefer`, `ConversationIsBounded`, `EndedConversationsClose`, `PhasesAreSafe`,
`CategoryChangesInTriage`, `ReconnectRestores`; `SessionEffects.EveryCallIsAnswered`, `CreatesExact`, `CountersCount`,
`ClassificationTakesEffect`.

The response gate works under three assumptions (`EveryCreateIsClean`), and each of them is needed: the three
`...BreakTheGate` lemmas of `SessionRuns` each construct a run that violates one of them only.

Where the code does something other than its documentation says, the model follows the code (`README.md` below is the
repository's own):

- `README.md:43` calls the phase allowlist a backstop against cross-category tool calls. It lets every category's tools
  of the same stage through, under their synonyms too; `ToolCatalog.GuardExcess` says exactly what passes beyond the offer.
- `README.md:268` speaks of consecutive tool failures. The counter is never reset (`PhaseMachine.CountersGrow`).
- `README.md:234` lists `escalate_to_agent` for TRIAGE. It is not offered there, and when the guard refuses it the
  refusal counts as success and the session is closed without a transfer. What decides is the phase stored at the
  latest dispatch, a retry included (`SessionTheorems.AgentEscalationTransfersUnlessTriage`), so a caller can be dropped
  although the tool was first dispatched outside TRIAGE (`SessionRuns.CallerIsDroppedOnRetry`).
- `README.md:69` says a transferred call ends with cause "transferred". It does only when the delayed hangup fails;
  otherwise the cause is "normal" (`SessionLifecycle.TeardownCloses`).
- A conversation that wraps up normally is marked ENDED by the FSM, so teardown neither sets an end time nor publishes
  CALL_ENDED (`SessionLifecycle.TeardownCloses`), and ENDED is not final (`PhaseMachine.EndedReopensByTransfer`).
- A once-per-phase tool requested under a synonym runs again and again in one visit (`SessionRuns.SynonymsEscape`); what
  a completion must not repeat, and that own names are enough, is `PhaseMachine.CompletionKeepsCanonicalRule` and
  `SessionTheorems.OwnNamesKeepTheRule`.
- One response can move the conversation more than once. Each move has one of four causes
  (`SessionSegments.MovesOfOneResponse`): the response reaches the turn limit, a phase_complete or a report_new_issue
  outside TRIAGE gets past the gate, or the session reconnects. While the gate's assumptions hold, the session is open
  and no response.create fails, at most one handler gets past per response, so that two moves, reconnects aside, take
  the turn limit and a handler (`SessionSegments.TwiceExactly`). It happens out of every phase a caller can be in
  (`SessionRuns.OneResponseAdvancesTwice`); from RESOLVE it ends the call. A response.create that fails lets the next
  handler through, so one response below the limit moves the conversation twice (`SessionRuns.FailedCreateLetsTwoPass`).
- An escalation started by a frustrated caller waits, inside the event loop, for an event only that loop can handle
  (`SessionRuns.LoopComesToWait`). Short of a timeout only a handler whose response.create fails can end the wait
  (`SessionSegments.OnlyATimeoutEndsTheWait`).
- Log entries get their numbers before their appends are scheduled. Out of order, a client also misses entries appended
  at or below its cursor and entries a full page overtakes (`LogPaging.MissedExactly`), and may receive one twice
  (`LogPaging.ReceivedTwice`, `LogPaging.RepeatedExactly`).
- With a non-positive threshold the circuit breaker raises instead of answering when no failure is recent
  (`Breaker.HealthAgrees`).
- `get_transcript(limit=n)` is the end of the full transcript only while turn indices are unique, as they are within
  one session (`OrderedQuery.SuffixIffDistinct`, `OrderedQuery.TranscriptLimitIsSuffix`).

## Model

| member | source | states |
|---|---|---|
| SessionProtocol.StepIsEvent | sip_bridge/session_manager.py:192-272 | every action of every task changes the conversation by exactly the event it carries, or not at all, so interleavings reduce to event sequences |
| SessionTheorems.PhaseStoreAndOfferAgree | sip_bridge/conversation_fsm.py:58-82 | at every suspension point of every run, FSM phase equals the stored phase, the tools last sent are those of that phase and category, and the dispatch guard refuses none of them |
| SessionTheorems.OneCallToolsCompleteOncePerVisit | sip_bridge/tool_executor.py:223-285 | in every interleaving, two successful completions of the same one-call tool under its own name have a phase entry between them |
| SessionTheorems.HandlersAreSerial | sip_bridge/tool_executor.py:197-202 | never are two handlers between taking the tool lock and ending |
| SessionEffects.CallsGetHandlers | sip_bridge/session_manager.py:255-266 | in every run there are exactly as many handlers as function calls heard |
| SessionEffects.StepSpawns | sip_bridge/session_manager.py:255-266 | each function call heard starts one handler for its tool and category, and nothing else starts one |
| SessionEffects.EveryCallIsAnswered | sip_bridge/tool_executor.py:55-202 | in every run a handler that has ended or is sending its response.create has written its output before, unless its arguments killed it or an escalation took its place |
| SessionEffects.StepAnswers | sip_bridge/tool_executor.py:55-80 | after its output a handler sends a response.create, except wait_for_user's, which ends; a handler reaches its end in no other way but those |
| SessionEffects.RetriedOnce | sip_bridge/tool_executor.py:409-418 | in every run each handler's dispatch is retried at most once |
| SessionEffects.CreatesExact | sip_bridge/session_manager.py:196-209 | in every run the response.creates are one greeting, if and only if the server was ever ready, and one for each output of a handler other than wait_for_user's and each announcement of an escalation |
| SessionEffects.TaskGoesOn | sip_bridge/session_manager.py:192-272 | for every step of every task: it goes on to a session.update if and only if the step entered a phase, to the announcement of an escalation, or past it without a session, if and only if the step started one, and into close() if and only if it closes the session, answering afterwards if and only if a phase_complete did |
| SessionEffects.InboxExactly | sip_bridge/session_manager.py:174-190 | messages are handled in order and once each, and those unhandled when the connection is lost are lost |
| SessionEffects.CountersCount | sip_bridge/conversation_fsm.py:203-209 | in every run the record's counters are the numbers of frustrated turns heard and of tools failed, whatever succeeded in between |
| SessionTheorems.AtMostOneAutomaticRefer | sip_bridge/conversation_fsm.py:152-201 | over any interleaving of frustration and tool failures at most one automatic REFER is issued, and only for a record whose counter reached a limit |
| SessionTheorems.ConversationIsBounded | sip_bridge/conversation_fsm.py:87-150 | once 4m+6 responses, 2m+5 more per report_new_issue that leaves another phase for TRIAGE and max(m,4)-1 more per reconnect have completed, the end of the session has been requested and the session closed or over (m the configured limit, at least 1) |
| SessionTheorems.EndedConversationsClose | sip_bridge/conversation_fsm.py:211-222 | in every run, once the end of the conversation has been requested the session is closing or over |
| ProtocolSafety.ClosesExactly | sip_bridge/session_manager.py:372-379 | for every step of every state: close() is called if and only if the conversation ends, by the turn limit heard in WRAP_UP or a phase_complete past the gate in WRAP_UP, an automatic REFER is accepted, escalate_to_agent succeeds or an operator acts; once the session is over a phase_complete, a REFER and an operator find nothing to close |
| ProtocolSafety.AcceptedReferCloses | sip_bridge/conversation_fsm.py:194-199 | after an accepted automatic REFER the session is closing or over |
| ProtocolSafety.ClosedStaysLost | sip_bridge/session_manager.py:125-135 | a connection lost after close() ends the session, and an ended session stays ended and never reconnects |
| SessionEffects.OverExactly | sip_bridge/session_manager.py:79-155 | for every step, when the session ends and when it is connected: over after a lost connection exactly if closing, after the loop's end or a failed REFER inside the loop; connected again only by a reconnect of a session that is not over |
| SessionLifecycle.CallIsBounded | sip_bridge/session_manager.py:79-155 | for every sequence of connection outcomes and conversation events: 4m+6 + k(2m+5) + 3(max(m,4)-1) responses suffice, with k such loopbacks, because there are at most three reconnects |
| SessionTheorems.PhasesAreSafe | sip_bridge/conversation_fsm.py:87-126 | a known caller never enters VERIFY; an unidentified one enters no phase past VERIFY without VERIFY or a reported new issue before it; the category is absent or valid |
| SessionTheorems.IdentityIsConstant | sip_bridge/conversation_fsm.py:103-111 | whether the caller is known never changes during the session |
| SessionTheorems.CategoryChangesInTriage | sip_bridge/tool_executor.py:38-50 | the stored category changes only by a phase_complete handler that names it while the stored phase is TRIAGE |
| SessionEffects.ClassificationTakesEffect | sip_bridge/tool_executor.py:38-53 | in every run, when a phase_complete naming one of the six categories gets past the gate in TRIAGE, the record then holds that category whatever it held before, the conversation is in DIAGNOSE, and the domain tools on offer are exactly that category's reading tools |
| SessionTheorems.ReconnectRestores | sip_bridge/session_manager.py:98-107 | a reconnect leaves phase, record and offered tools as they were and only restarts the visit's counters |
| SessionTheorems.OneResponseCanAdvanceTwice | sip_bridge/session_manager.py:214-219 | a waiting phase_complete that wakes and proceeds right after the end of a response was heard: the two together move the conversation once if and only if the turn limit is not reached, otherwise twice, in every phase; the call ends by it exactly from WRAP_UP, or from RESOLVE at the limit |
| SessionSegments.MovesAreCaused | sip_bridge/conversation_fsm.py:87-150 | over any stretch of any run the phase entries and requested ends are exactly the turn limits reached, the phase_completes past the gate, the report_new_issues past it outside TRIAGE, and the reconnects |
| SessionSegments.MovesOfOneResponse | sip_bridge/session_manager.py:214-219 | between two heard ends of responses the moves are those, the turn limit counting once if the first response reached it |
| SessionSegments.OneHandlerPerResponse | sip_bridge/tool_executor.py:33-36 | in a disciplined run with an open session, after a handler that answers by a response.create no other gets past the gate until a response ends or a response.create fails |
| SessionSegments.TwiceExactly | sip_bridge/tool_executor.py:33-53 | in a disciplined run, with the session open and no response.create failing, one response moves the conversation at most twice, reconnects aside, and twice if and only if it reaches the turn limit and a phase_complete or a report_new_issue outside TRIAGE gets past the gate |
| SessionRuns.FailedCreateLetsTwoPass | sip_bridge/session_manager.py:365-370 | for every caller and settings, a run in which a response below the turn limit moves the conversation twice because a response.create fails; disciplined throughout where the greeting may take two turns |
| SessionRuns.OneResponseAdvancesTwice | sip_bridge/tool_executor.py:32-53 | for every caller, every settings and every phase that caller can be in, a run in which one response moves the conversation twice out of that phase |
| SessionTheorems.GateHoldsThroughout | sip_bridge/session_manager.py:196-215 | without timeouts, unasked responses and frustration escalation, the gate's invariant holds after every run |
| SessionTheorems.EveryCreateIsClean | sip_bridge/session_manager.py:356-394 | under those assumptions an open gate means no response is outstanding, and every response.create of every task is sent with none outstanding |
| SessionEffects.GateExactly | sip_bridge/session_manager.py:356-389 | for every step: the gate is shut by each response.create and each beginning of a response heard, opened by the end of a response, a failed create or a timeout, and is otherwise as it was |
| SessionRuns.UnaskedResponsesBreakTheGate | sip_bridge/session_manager.py:203-212 | a run in which only an unasked server response makes a response.create meet an outstanding one |
| SessionRuns.TimeoutsBreakTheGate | sip_bridge/session_manager.py:381-389 | a run in which only a timed-out wait does |
| SessionRuns.FrustrationBreaksTheGate | sip_bridge/conversation_fsm.py:177-193 | for all positive limits, a run in which only a frustration escalation does |
| SessionRuns.LoopComesToWait | sip_bridge/conversation_fsm.py:181-193 | for all positive limits, a run without timeouts in which the event loop comes to wait for the end of a response only it could hear of |
| SessionSegments.OnlyATimeoutEndsTheWait | sip_bridge/session_manager.py:248-253 | in every run, when the event loop waits in an escalation of its own with the gate shut, some continuation without timeouts moves it on if and only if a handler past the gate can still have, or has had, its response.create refused |
| SessionTheorems.DuplicateCheckExact | sip_bridge/tool_executor.py:231-260 | in every run a handler is rejected as a duplicate if and only if its tool is a one-call tool completed since the latest phase entry under the requested name |
| SessionRuns.SynonymsEscape | sip_bridge/tool_executor.py:459-473 | for every synonym of a one-call tool, a run in which it completes twice in one visit of DIAGNOSE |
| SessionTheorems.OwnNamesKeepTheRule | sip_bridge/tool_executor.py:223-285 | in every run without handlers requested under such a synonym, the once-per-visit rule holds for the tools the names stand for |
| PhaseMachine.CompletionKeepsCanonicalRule | sip_bridge/tool_executor.py:283-285 | a completion keeps that rule if and only if nothing reaching the same one-call tool has completed on this visit |
| SessionTheorems.AgentEscalationTransfersUnlessTriage | sip_bridge/tool_executor.py:271-314 | in every run a successful escalate_to_agent asks for the close of the session, and transfers the caller if and only if the call is unregistered or the stored phase was not TRIAGE at the latest dispatch, a retry included |
| SessionTheorems.AllowedByLatestDispatch | sip_bridge/tool_executor.py:409-418 | whether a dispatch in progress was allowed is what the guard said at the latest dispatch or retry, whatever other tasks did since |
| SessionRuns.CallerIsDroppedOnRetry | sip_bridge/tool_executor.py:409-418 | for every registered caller and settings, a run in which the tool is first dispatched outside TRIAGE, the retry is refused, and the caller is dropped |
| SessionTheorems.RunIsSound | sip_bridge/tool_executor.py:18-202 | the conjunction of all run invariants holds after every sequence of actions |
| SessionTheorems.StepKeepsSound | sip_bridge/tool_executor.py:205-406 | one step of any task, of the server, the network or an operator keeps all run invariants |
| ProtocolSafety.StepMoves | sip_bridge/session_manager.py:255-266 | an action moves its own task only, new handlers queue for the lock, and the acting handler takes, holds or frees the lock as its position says |
| ProtocolSafety.StepKeepsLock | sip_bridge/session_manager.py:391-394 | exactly the lock's holder is between acquiring it and ending |
| ProtocolSafety.StepKeepsChecks | sip_bridge/tool_executor.py:231-285 | between its duplicate check and its completion a handler's tool stays uncompleted on the visit, and a duplicate never dispatches |
| ProtocolSafety.StepKeepsOncePerVisit | sip_bridge/tool_executor.py:283-285 | the once-per-visit rule survives every step |
| ProtocolSafety.ReferPath | sip_bridge/conversation_fsm.py:164-199 | a task enters the path to an automatic REFER only on the escalation signal and leaves it only by issuing the REFER |
| ProtocolSafety.StepKeepsReferrer | sip_bridge/conversation_fsm.py:164-196 | at most one task is on that path, and only before the first automatic REFER |
| ResponseGate.StepKeepsGate | sip_bridge/session_manager.py:196-215 | every disciplined step keeps the gate invariant relating the gate, the server and the messages the loop has not heard |
| ResponseGate.LoopKeepsGate | sip_bridge/session_manager.py:211-215 | the loop's handling of response.created and response.done keeps it |
| ResponseGate.TaskKeepsGate | sip_bridge/tool_executor.py:33-36 | every step of the handler past the lock keeps it |
| PhaseMachine.StepKeepsAgreement | sip_bridge/conversation_fsm.py:58-82 | every event keeps phase, record and offer in agreement |
| PhaseMachine.OfferIsCurrent | sip_bridge/tool_executor.py:527-544 | the offered names are exactly those of the stored phase and category, and the guard passes them |
| PhaseMachine.DuplicateRegistrationBreaksAgreement | core/state_store.py:57-62 | registering the same call id again keeps the agreement if and only if the conversation is in GREETING |
| PhaseMachine.AdvanceMoves | sip_bridge/conversation_fsm.py:87-113 | advance moves exactly one phase on, two from GREETING for a known caller, and ends the session from WRAP_UP |
| PhaseMachine.PhaseChangesExactly | sip_bridge/conversation_fsm.py:87-150 | phase, turn count and stored phase after every event in every state: the next phase, TRIAGE for a known caller from GREETING, after a phase_complete and at the limit of 2 turns in TRIAGE, 4 in DIAGNOSE and the configured number elsewhere; TRIAGE after report_new_issue |
| PhaseMachine.StepKeepsSafety | sip_bridge/conversation_fsm.py:103-113 | every event keeps the verification and category rules |
| PhaseMachine.StepKeepsIdentity | sip_bridge/tool_executor.py:39-50 | no event changes the account id; only a valid phase_complete in TRIAGE changes the category |
| PhaseMachine.StepKeepsBudget | sip_bridge/conversation_fsm.py:128-150 | every event keeps completed responses plus the rank of the current position within the turn budget |
| PhaseMachine.SilentCallerIsLetGo | sip_bridge/conversation_fsm.py:128-150 | the budget is tight: an unidentified caller whose model only talks is let go after exactly 4m+6 responses |
| PhaseMachine.StepKeepsTracking | sip_bridge/conversation_fsm.py:50-62 | the FSM's set of called tools is the set completed since the latest phase entry |
| PhaseMachine.StepKeepsOnce | sip_bridge/conversation_fsm.py:50-62 | an event completing a one-call tool not in that set keeps the once-per-visit rule |
| PhaseMachine.StepKeepsEscalation | sip_bridge/conversation_fsm.py:159-174 | escalation starts at most once per record |
| PhaseMachine.CountersGrow | sip_bridge/tool_executor.py:426-431 | the two counters never decrease, the escalated mark never clears, and it is set only past a limit |
| PhaseMachine.EndsExactly | sip_bridge/conversation_fsm.py:87-126 | an event requests the end if and only if it is a phase_complete in WRAP_UP or the response that reaches the turn limit there |
| PhaseMachine.CountersExact | sip_bridge/conversation_fsm.py:203-209 | each frustrated turn and each failed tool adds one to its counter, and no other event changes either |
| PhaseMachine.EscalationStartsExactly | sip_bridge/conversation_fsm.py:152-176 | an event starts an escalation if and only if it is a frustrated turn or a tool other than escalate_to_agent that leaves an unclaimed record at a limit |
| PhaseMachine.RecordChangesExactly | sip_bridge/conversation_fsm.py:152-222 | state and hangup cause of the record after every event, for every record before |
| PhaseMachine.CategoryChangesExactly | sip_bridge/tool_executor.py:38-50 | the category after every event: the one named by a phase_complete in stored TRIAGE if it is one of the six, whatever was recorded before, and otherwise the one there was |
| PhaseMachine.EndedReopensByTransfer | sip_bridge/call_controller.py:89-93 | a record marked ENDED becomes TRANSFERRING exactly by an accepted REFER, or by an escalation check that finds it not yet escalated and over a limit |
| ToolCatalog.ToolsForPhase | sip_bridge/prompt_builder.py:129-782 | builds the offered names in order; what is on the list is ToolListIsOffer |
| ToolCatalog.ToolListIsOffer | sip_bridge/prompt_builder.py:129-782 | a tool is on the list if and only if its category, its stage and the phase say so, tool by tool |
| ToolCatalog.OfferTable | sip_bridge/prompt_builder.py:129-782 | the list of every phase and category, name by name in order |
| ToolCatalog.UnclassifiedOffer | sip_bridge/prompt_builder.py:129-186 | without a category, or with an empty one, every phase offers what it offers for technical support |
| ToolCatalog.OfferPassesGuard | sip_bridge/tool_executor.py:479-544 | no offered tool is refused at dispatch |
| ToolCatalog.GuardExcess | sip_bridge/tool_executor.py:475-517 | for every requested name, the guard passes it unoffered if and only if it is lookup_customer in TRIAGE, another category's tool of the same stage, or a synonym of any tool of the stage |
| ToolCatalog.SynonymsActAlike | sip_bridge/tool_executor.py:459-544 | none of the ten synonyms is ever offered, and each passes the guard in exactly the phases that offer the tool it stands for under some category |
| ToolCatalog.AgentGuard | sip_bridge/tool_executor.py:510-517 | escalate_to_agent is refused in TRIAGE and nowhere else |
| ConversationFsm.ConversationFSM.Enter | sip_bridge/conversation_fsm.py:58-82 | the FSM, the shared record and the sent tool list all change as the entry of the phase prescribes |
| ConversationFsm.ConversationFSM.Advance | sip_bridge/conversation_fsm.py:87-113 | object and specification agree on the next phase, the skip of VERIFY and the end |
| ConversationFsm.ConversationFSM.Transition | sip_bridge/conversation_fsm.py:115-126 | a jump to the current phase does nothing, any other enters the target |
| ConversationFsm.ConversationFSM.RecordTurn | sip_bridge/conversation_fsm.py:128-150 | counts the turn and advances at the phase's limit |
| ConversationFsm.ConversationFSM.CheckEscalation | sip_bridge/conversation_fsm.py:152-175 | claims the call for escalation exactly when a limit is reached and nobody has |
| ConversationFsm.ConversationFSM.RecordFrustration | sip_bridge/conversation_fsm.py:203-209 | counts the signal, then checks |
| ConversationFsm.ConversationFSM.EndSession | sip_bridge/conversation_fsm.py:211-222 | marks the record ENDED with cause normal and closes a registered session |
| ConversationFsm.ConversationFSM.RecordToolCalled | sip_bridge/conversation_fsm.py:54-56 | remembers the tool for this visit |
| ConversationFsm.ConversationFSM.CompletePhase | sip_bridge/tool_executor.py:38-53 | records a valid category in TRIAGE and only there, whatever was recorded before, then advances |
| ConversationFsm.ConversationFSM.ReportNewIssue | sip_bridge/tool_executor.py:163-169 | goes back to TRIAGE from any phase but TRIAGE |
| ConversationFsm.ConversationFSM.FinishTool | sip_bridge/tool_executor.py:279-314 | records success or counts a failure, then checks escalation; escalate_to_agent instead closes the session on success, having marked the record transferring if it was allowed |
| ConversationFsm.ConversationFSM.MarkReferred | sip_bridge/call_controller.py:89-93 | an accepted REFER marks the record TRANSFERRING with cause transferred |
| ConversationFsm.ConversationFSM.CheckDuplicate | sip_bridge/tool_executor.py:231-235 | true exactly for a one-call tool in the visit's set |
| ConversationFsm.ConversationFSM.IncrementToolFailure | sip_bridge/tool_executor.py:426-431 | the record's failure count grows by one, if there is a record |
| ConversationFsm.SessionManager.BeginCreate | sip_bridge/session_manager.py:362-366 | before the send suspends the gate is shut, as in the protocol's step |
| ConversationFsm.SessionManager.EndCreate | sip_bridge/session_manager.py:367-370 | after it a failure opens the gate, and success leaves it as other tasks have set it meanwhile |
| ConversationFsm.SessionManager.SendResponseCreate | sip_bridge/session_manager.py:356-370 | the two together leave the gate open exactly after a failure |
| ConversationFsm.SessionManager.TakeTurnIndex | sip_bridge/session_manager.py:405-406 | hands out the index whose save OrderedQuery's turns then await, and no other task gets it |
| SessionLifecycle.ReconnectsAreBounded | sip_bridge/session_manager.py:79-155 | for every sequence of outcomes: at most four connections and four recorded errors, at most one reconnect failure, and that one if and only if a handshake is rejected or the fourth connection drops |
| SessionLifecycle.RecordedTimes | sip_bridge/session_manager.py:109-155 | for every sequence of connection outcomes the errors and the failures recorded are exactly those of the passes reached that end in an error and of the pass that gives up, at their times, and the sockets opened those of the passes reached that connect |
| SessionLifecycle.RunningIff | sip_bridge/session_manager.py:79-155 | the loop is still running after k passes if and only if each was dropped without being asked for and a retry is left |
| SessionLifecycle.PhaseSurvivesReconnects | sip_bridge/session_manager.py:91-107 | for every sequence of outcomes and conversation events, a later connection enters the phase those events led to, with record and offer unchanged; without an earlier connection nothing is entered and the loop stops |
| SessionLifecycle.TeardownCloses | sip_bridge/session_manager.py:274-321 | what teardown leaves of a record: announced and given an end time, a cause and a duration if and only if it was open; a cause set before is kept, after a transfer it says whether the hangup succeeded, and the duration runs from the answer to the end |
| SessionLifecycle.Session.Connect | sip_bridge/session_manager.py:53-159 | the loop meets its specification, the store holds the recorded errors and failures, teardown happens once, and an existing record is closed with one CDR save, whatever the hangup requests of the failure path and of teardown each answer |
| SessionLifecycle.Session.RunAttempt | sip_bridge/session_manager.py:79-155 | one pass opens, enters a phase, records errors and failures, retries or stops exactly as its outcome, its number and an earlier close() determine; reconnecting without an FSM stops it |
| SessionLifecycle.Session.HandleWsFailure | sip_bridge/session_manager.py:161-172 | the cause becomes ws_failure, one failure is recorded, and a successful hangup overwrites the cause |
| SessionLifecycle.Session.TearDown | sip_bridge/session_manager.py:274-321 | with no concurrent writer an existing record is closed as TeardownCloses says and one CDR save is scheduled; without a record nothing happens |
| SessionLifecycle.Session.Hangup | sip_bridge/call_controller.py:100-118 | a successful request closes the record with cause normal and duration, a failed one changes nothing |
| Breaker.BoundedBreakerExact | core/state_store.py:200-221 | for non-decreasing failure times the 200-entry deque decides like the full history up to threshold 200, and never opens above it |
| Breaker.HealthAgrees | core/state_store.py:237-244 | the health report shows what the gate decides, except that the gate raises for a non-positive threshold and no recent failure |
| Breaker.ClosedStaysClosed | core/state_store.py:204-221 | without new failures a closed breaker never opens |
| Breaker.ClosesWithinCooldown | core/state_store.py:204-221 | an open breaker is closed once the cooldown has passed since every failure |
| Breaker.OpenMeansSessionsFailed | core/state_store.py:200-221 | if each failed session leaves one timestamp, an open breaker means at least threshold sessions failed within the window |
| SessionLifecycle.OpenBreakerMeansSessionsGaveUp | sip_bridge/session_manager.py:161-167 | an open breaker means at least threshold sessions recorded a failure within the window, and each of them gave up on its connection; no assumption on how many timestamps a session leaves |
| Budget.DailyTotalExact | core/state_store.py:124-138 | the lazily reset total is the sum of the latest usage day's costs, and the alert flag says whether it reached the limit |
| Budget.ReadingExact | core/state_store.py:163-168 | a reading on any later or equal day is that day's spending |
| Budget.AlertAtFirstCrossing | core/state_store.py:132-137 | the alert fires exactly at the usage that first takes its day to the limit |
| Budget.AlertOncePerDay | core/state_store.py:125-137 | the alert fires at most once per day |
| Budget.AlertClosesTheDay | sip_bridge/webhook_handler.py:115-133 | after the alert every later call of that day is rejected |
| Admission.VerdictExact | sip_bridge/webhook_handler.py:114-146 | for every usage history, failure history, limit and threshold: a call is let in if and only if there is no maintenance, the day's spending is below a positive limit, and too few failures lie within the window, the threshold exceeds the 200 kept, or every failure is at least a cooldown old; and on which ground it is rejected, or the gate raises, otherwise |
| Admission.GateExact | core/state_store.py:200-221 | what the bounded deque makes the gate answer, in terms of all failures there ever were |
| Ledger.TokensAreConserved | core/state_store.py:116-123 | for every sequence of registrations, preloads, stored records and usages, the global counters plus the totals records brought in equal the per-call counters plus unknown usage plus what replaced records held |
| Ledger.GlobalIsSumOfCalls | core/models.py:85-96 | with distinct ids, no preload and updates of current records only, every global counter is the sum of the calls' counters plus unknown usage |
| Ledger.GlobalCounts | core/models.py:85-96 | for every sequence of operations each global counter is the sum of its own field over all usage reported, the responses their number and the cost the sum of their costs |
| Ledger.CallCounts | core/state_store.py:116-123 | each counter of a registered call is the sum of its own field over the usage reported for that call since, whatever happens to other calls |
| Ledger.CostAdds | core/state_store.py:103-114 | usage costs the sum of what its parts cost, and only the five priced kinds matter |
| Ledger.ThousandTokens | core/state_store.py:103-114 | a thousand tokens of one kind cost the price of that kind |
| Ledger.CostIsNeverNegative | core/state_store.py:103-114 | with non-negative prices no usage has a negative cost |
| LogPaging.ClientMissesOnlyEvicted | dashboard/routes/logs.py:10-21 | with appends in sequence order a client that begins anywhere and loops on next_seq receives a strictly increasing sequence and misses, between its start and its cursor, only entries evicted unread before the cursor reached them |
| LogPaging.PageIsFirst | core/state_store.py:189-192 | a page holds exactly the buffered entries after the cursor up to the page's end |
| LogPaging.MissedExactly | dashboard/routes/logs.py:16-21 | for every order of appends and polls, an entry the cursor has reached was missed if and only if it was evicted unread, appended at or below the cursor, or overtaken: it stood behind enough newer entries to fill a page that ended in a greater id |
| LogPaging.LeftOutExactly | core/state_store.py:189-192 | a newer entry is left out of a page if and only if the page is full before its turn |
| LogPaging.CutPageOvertakes | dashboard/routes/logs.py:13-17 | a run in which an entry neither evicted nor late is passed by a page of one |
| LogPaging.OutOfOrderIsLost | core/state_store.py:181-192 | in every run, an entry appended at or below the cursor is in the buffer and never delivered, whatever follows |
| LogPaging.RepeatedExactly | dashboard/routes/logs.py:16-21 | after every run, an appended entry, received before or not, can be received in some continuation if and only if it is still buffered with an id above the cursor |
| LogPaging.ReceivedTwice | dashboard/routes/logs.py:16-21 | a run of two polls in which an entry is received twice |
| Registry.StateStore.EmitLog | core/logger.py:29-44 | every entry gets a sequence id no earlier entry has |
| Registry.TokenAggregate.Add | core/models.py:85-96 | every counter takes its own field of the usage |
| Registry.StateStore.CreateCall | core/state_store.py:57-62 | the record is filed under its id, replacing any other |
| Registry.StateStore.UpdateCall | core/state_store.py:64-71 | files the record under its id: nothing but the failure count changes for the record that is there, and a stale record, whose id was registered again, comes back with its own totals |
| Registry.StateStore.GetCall | core/state_store.py:73-75 | returns the shared record itself |
| Registry.StateStore.RecordTokenUsage | core/state_store.py:116-150 | tokens, daily cost and alert change as the ledger and the budget prescribe, and nothing else does |
| Registry.StateStore.GetDailyCost | core/state_store.py:163-168 | answers today's spending, zero when the stored day is not today |
| Registry.StateStore.LoadRecentCdrs | core/state_store.py:281-347 | live records stay, every other id gets the record of its first row with the defaults for an unknown state or phase, totals enter only under free ids, and the count is the number inserted |
| Registry.StateStore.AppendLog | core/state_store.py:181-183 | the buffer keeps the newest entries |
| Registry.StateStore.GetLogs | dashboard/routes/logs.py:16-21 | the loop answers the first entries after the cursor, up to the limit, and the next cursor, which stays when there are none |
| Registry.StateStore.RecordReconnectFailure | core/state_store.py:200-202 | the deque keeps the newest 200 timestamps |
| Registry.StateStore.IsCircuitOpen | core/state_store.py:204-221 | answers the decision the breaker lemmas are about, None standing for the exception |
| Registry.AskGates | sip_bridge/webhook_handler.py:114-146 | maintenance, budget and breaker are asked in that order, with the verdict VerdictExact is about |
| Registry.StateStore.SetMaintenanceMode | dashboard/routes/operator.py:20-23 | sets the flag AskGates asks first |
| Registry.HandleCallIncoming | sip_bridge/webhook_handler.py:88-146 | a fresh record, RINGING in GREETING and otherwise empty, is registered before any gate is asked, whatever the verdict, and the verdict is the gates' |
| Models.PushBoundedIsSuffix | core/state_store.py:35-44 | a bounded deque always holds the suffix of its append history |
| EventDelivery.EventBus.Publish | core/event_bus.py:33-41 | each subscription of the topic is offered the message once, and a full queue drops it |
| EventDelivery.OfferTimesExact | core/event_bus.py:33-41 | a message offered n times is taken n times or until 256 messages wait, behind what is there |
| EventDelivery.EventBus.Subscribe | core/event_bus.py:43-48 | a fresh empty queue joins each listed topic as often as it is listed |
| EventDelivery.CountOfExact | core/event_bus.py:43-48 | how often a topic is listed is its multiplicity in the list |
| EventDelivery.EventBus.Unsubscribe | core/event_bus.py:51-57 | one occurrence per listing leaves |
| EventDelivery.LeavingUndoesSubscribing | core/event_bus.py:43-57 | leaving restores the subscriber list, whoever joined in between |
| EventDelivery.WSManager.Broadcast | dashboard/ws_manager.py:93-107 | each connection is sent the message once, and exactly those whose send failed are dropped |
| EventDelivery.OnlyFullQueuesDrop | core/event_bus.py:33-45 | in every run the dequeued and queued messages are the published ones minus exactly those that met a full queue |
| EventDelivery.ClientsReceiveABlock | dashboard/ws_manager.py:65-107 | in every run each client has received an in-order contiguous block of the dequeued messages beginning at its registration, complete while it stays registered |
| Transcripts.TranscriptPanel.HandleMessage | dashboard/static/js/transcript-panel.js:36-92 | snapshots, new calls and live turns change the panel's maps as the specified updates |
| Transcripts.PanelIsExact | dashboard/static/js/transcript-panel.js:38-50 | after any updates the panel holds for a call exactly the turns delivered for it, one per index |
| Transcripts.RenderedExact | dashboard/static/js/transcript-panel.js:118-130 | the rendered transcript is ascending and shows exactly the turns held |
| Transcripts.UpdatesExact | dashboard/static/js/transcript-panel.js:36-92 | what the panel does with a message is what the message carries: the turns of a snapshot's entries, a live turn, or a new call |
| Transcripts.TranscriptIsWhatCame | dashboard/static/js/transcript-panel.js:36-146 | after any messages the transcript rendered for a call they name is ascending and has exactly the turns they brought for it |
| Transcripts.TranscriptsConverge | dashboard/static/js/transcript-panel.js:36-146 | the rendered transcript does not depend on order, repetition or the split into snapshots and live turns |
| CardScrub.CardEndExact | db/repository.py:44 | matching greedily without backtracking finds exactly the card numbers: four groups of four digits, nothing, a dash or one white-space character between them, and no word character next to them |
| CardScrub.CardIsRedacted | db/repository.py:44-48 | for all groups of four digits and all separators the card number becomes [REDACTED], alone and between characters of no word |
| CardScrub.ScrubExact | db/repository.py:44-48 | for every text: up to its first card number it is copied, the card number becomes [REDACTED], and what follows is scrubbed by itself |
| CardScrub.CardNumberReads | db/repository.py:44 | a card number has sixteen digits, and all else in it is a dash or white space, one at most after the fourth, the eighth and the twelfth |
| CardScrub.NoCardLeft | db/repository.py:44-48 | for every text the output contains no card number |
| CardScrub.ScrubIsIdempotent | db/repository.py:44-48 | scrubbing twice is scrubbing once |
| CardScrub.ScrubKeepsTheRest | db/repository.py:47-48 | the text falls into kept characters and card numbers, and only the card numbers are replaced |
| CardScrub.ChangedIffCardPresent | db/repository.py:44-48 | the text changes if and only if it contains a card number |
| PhoneIdentity.CandidatesExact | db/repository.py:115-127 | the candidates are the raw spelling and the two standard spellings of a ten-digit national number, nothing else |
| PhoneIdentity.CandidatesKeepNumber | db/repository.py:115-127 | every candidate has the national number of its input |
| PhoneIdentity.NationalExact | db/repository.py:117-126 | a ten-digit national number is the digits of the spelling, or its digits behind a one |
| PhoneIdentity.DigitsExact | db/repository.py:117 | the digits of a text are those of its parts in order |
| PhoneIdentity.GuardedLookupExact | sip_bridge/tool_executor.py:545-577 | for every phone look-up, the answer of guard and look-up together: refused if and only if the identifier is neither the verified number as it is nor, when its national number has ten digits, a standard spelling of that; otherwise nobody, an exception or the one customer, each with its exact condition |
| PhoneIdentity.OtherLookupExact | db/repository.py:144-149 | for every look-up by e-mail address or account id, the answer with the exact conditions of nobody, an exception and the one customer |
| PhoneIdentity.IdentifierExact | sip_bridge/tool_executor.py:434-444 | the identifier is the value of the first of the six keys that has one |
| PhoneIdentity.KindExact | sip_bridge/tool_executor.py:445-453 | the declared kind is taken; undeclared, an address decides for e-mail and, failing that, a number for phone |
| PhoneIdentity.PhoneMatchIsTheCaller | sip_bridge/tool_executor.py:545-577 | through guard and lookup together, a customer matched by phone has the verified caller's national number |
| PhoneIdentity.PhoneLookupExact | db/repository.py:137-149 | for every table a look-up by phone finds nobody exactly without a row in a tried spelling, raises exactly with two of them, and otherwise answers the one |
| PhoneIdentity.StandardRowIsReached | sip_bridge/tool_executor.py:545-577 | in every table with a row in a standard spelling of the verified number, every identifier the guard passes finds that row through guard and look-up, or raises exactly when there is a second tried row |
| OrderedQuery.LimitedIsSuffix | db/repository.py:84-112 | with distinct keys the limited answer is the last N of the unlimited one, whatever orders the database chooses |
| OrderedQuery.EventLimitIsSuffix | db/repository.py:84-112 | for events, whose row ids are unique, the limited answer is the last N whatever the creation times |
| OrderedQuery.SuffixIffDistinct | db/repository.py:259-288 | it is so for every limit and every allowed order if and only if the keys are distinct |
| OrderedQuery.TiesMayDisagree | db/repository.py:263-274 | with two different rows of equal key, an allowed answer that disagrees |
| OrderedQuery.IndicesStayUnique | sip_bridge/session_manager.py:401-416 | the turn indices a session saves are unique, in whatever order saves commit or fail |
| OrderedQuery.TranscriptLimitIsSuffix | db/repository.py:259-288 | for every interleaving of one session's saves the limited transcript is the end of the full one |

## Left out

- Broadcast: one round in which nobody connects or disconnects; rounds interleaved with arrivals and departures are `EventDelivery.ClientsReceiveABlock`.
- ToolsForPhase: names only; the schemas and descriptions, including the caller-dependent wording of lookup_customer, do not affect which tools are offered.
- LoadRecentCdrs: of a past record's identity only id and account; addresses, names and the time of creation play no part here.
- BeginCreate: of the object only the gate flag; what the write does to the server is `SessionProtocol.BeginCreate`.
- EndCreate: of the object only the gate flag.
- CreateCall: the accept timestamp and the last-call time, read only for setup latency and registration state, are not modelled.
- Connect: the outcomes of the four possible attempts, including the phase the conversation reaches by the next one, are inputs, and no other task writes the record during teardown; the interleaving with handlers is the session protocol's.
- HandleMessage: the event timeline, the call selector and drawing are not modelled.
- PhoneMatchIsTheCaller: covers identifiers resolved as phone numbers; look-ups by email or account id carry no such promise in the code (`PhoneIdentity.OtherLookupExact` says what they answer).
- HTTP, WebSocket framing, SQL, JSON and webhook signatures: the environment succeeds, fails, times out or disconnects as an action or an input.
- The language model: which tool is called, when and with which category is arbitrary.
- Frustration keywords: whether a caller turn contains one is an input of the event.
- Prompt text, per-phase response instructions, tool_choice and audio configuration.
- Setup latencies, their statistics and the other figures of channel health.
- Session objects of the dashboard, escalation contexts and handoff delivery: they feed nothing modelled here.
- Accepting and rejecting a call over HTTP, and the caller-ID look-up before the session: the session starts from any record they can leave.
- Ticket, billing, catalogue, appointment and CDR queries: simple filters.
- The dashboard's own WebSocket client, a smaller retry loop of the same shape as connect.
- Rounding of costs: amounts are real numbers.
