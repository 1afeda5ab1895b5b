// Tool names, what each phase offers to the model, and the dispatch guard.
module ToolCatalog {
  import opened Models

  // The names the executor knows, the alternative names it maps, and any other name
  // the language model may invent.
  datatype Tool =
    | PhaseComplete | WaitForUser | ReportNewIssue | EscalateToAgent | LookupCustomer
    | GetServiceStatus | GetTicket | GetAccountHistory | CreateTicket | UpdateTicket
    | GetAccountBalance | GetPaymentHistory | MakePayment | SetupAutopay
    | GetProductCatalog | GetPromotions | InitiateUpgrade
    | GetServiceEligibility | InitiateServiceMove | CancelService
    | GetAppointments | ConfirmAppointment | CancelAppointment | RescheduleAppointment
    | GetAccountDetails | UpdateContactInfo
    | GetSupportTickets | GetTickets | GetOpenTickets | CheckService | GetAccountStatus
    | LookupTicket | GetTicketDetails | CheckTicket
    | CloseTicket | ResolveTicket
    | Named(name: string)

  // _TOOL_SYNONYMS.get(name, name)
  function Canonical(tool: Tool): Tool {
    match tool
    case GetSupportTickets | GetTickets | GetOpenTickets | CheckService | GetAccountStatus => GetServiceStatus
    case LookupTicket | GetTicketDetails | CheckTicket => GetTicket
    case CloseTicket | ResolveTicket => UpdateTicket
    case _ => tool
  }

  // Handled by name before the dispatcher and its guard are reached.
  predicate Intercepted(tool: Tool) {
    tool.PhaseComplete? || tool.WaitForUser? || tool.ReportNewIssue?
  }

  // The proactive tools limited to one successful call per phase visit.
  predicate IsOneCall(tool: Tool) {
    tool.GetServiceStatus? || tool.GetAccountBalance? || tool.GetProductCatalog?
    || tool.GetAppointments? || tool.GetAccountDetails? || tool.GetServiceEligibility?
  }

  // service_category or "technical_support"
  function Effective(category: Option<string>): string {
    if category.None? || category.value == "" then "technical_support" else category.value
  }

  // ---- What a phase offers, tool by tool (the reference definition) ----

  // The service category a domain tool belongs to.
  function Home(tool: Tool): Option<string> {
    match tool
    case GetServiceStatus | GetTicket | GetAccountHistory | CreateTicket | UpdateTicket => Some("technical_support")
    case GetAccountBalance | GetPaymentHistory | MakePayment | SetupAutopay => Some("billing")
    case GetProductCatalog | GetPromotions | InitiateUpgrade => Some("sales")
    case GetServiceEligibility | InitiateServiceMove | CancelService => Some("move_transfer")
    case GetAppointments | ConfirmAppointment | CancelAppointment | RescheduleAppointment => Some("appointment")
    case GetAccountDetails | UpdateContactInfo => Some("account")
    case _ => None
  }

  // Domain tools that take effect only from RESOLVE on.
  predicate IsAction(tool: Tool) {
    match tool
    case UpdateTicket | MakePayment | SetupAutopay | InitiateUpgrade | InitiateServiceMove | CancelService
       | ConfirmAppointment | CancelAppointment | RescheduleAppointment | UpdateContactInfo => true
    case _ => false
  }

  predicate IsClosingPhase(phase: ConvPhase) { phase.Resolve? || phase.WrapUp? }

  predicate IsWorkPhase(phase: ConvPhase) { phase.Diagnose? || IsClosingPhase(phase) }

  predicate IsOffered(tool: Tool, phase: ConvPhase, category: Option<string>) {
    match tool
    case PhaseComplete | WaitForUser => true
    case EscalateToAgent => !phase.Triage?
    case ReportNewIssue => IsClosingPhase(phase)
    case LookupCustomer => phase.Verify? || IsWorkPhase(phase)
    case _ =>
      && Home(tool) == Some(Effective(category))
      && IsWorkPhase(phase)
      && (IsAction(tool) ==> IsClosingPhase(phase))
  }

  // ---- What a phase offers, as the list that is built and sent ----

  function DiagnosticTools(category: string): seq<Tool> {
    if category == "technical_support" then [GetTicket, GetAccountHistory, GetServiceStatus, CreateTicket]
    else if category == "billing" then [GetAccountBalance, GetPaymentHistory]
    else if category == "sales" then [GetProductCatalog, GetPromotions]
    else if category == "move_transfer" then [GetServiceEligibility]
    else if category == "appointment" then [GetAppointments]
    else if category == "account" then [GetAccountDetails]
    else []
  }

  function ActionTools(category: string): seq<Tool> {
    if category == "technical_support" then [UpdateTicket]
    else if category == "billing" then [MakePayment, SetupAutopay]
    else if category == "sales" then [InitiateUpgrade]
    else if category == "move_transfer" then [InitiateServiceMove, CancelService]
    else if category == "appointment" then [ConfirmAppointment, CancelAppointment, RescheduleAppointment]
    else if category == "account" then [UpdateContactInfo]
    else []
  }

  function ToolList(phase: ConvPhase, category: Option<string>): seq<Tool> {
    (if phase.Verify? || IsWorkPhase(phase) then [LookupCustomer] else [])
    + (if IsWorkPhase(phase) then DiagnosticTools(Effective(category)) else [])
    + (if IsClosingPhase(phase) then ActionTools(Effective(category)) else [])
    + [PhaseComplete] + [WaitForUser]
    + (if phase.Triage? then [] else [EscalateToAgent])
    + (if IsClosingPhase(phase) then [ReportNewIssue] else [])
  }

  // The list the prompt builder assembles; ToolListIsOffer says what is on it.
  method ToolsForPhase(phase: ConvPhase, category: Option<string>) returns (tools: seq<Tool>)
    ensures tools == ToolList(phase, category)
  {
    hide DiagnosticTools, ActionTools, Effective;
    var effective := Effective(category);
    tools := [];
    if phase.Verify? || phase.Diagnose? || phase.Resolve? || phase.WrapUp? {
      tools := tools + [LookupCustomer];
    }
    if phase.Diagnose? || phase.Resolve? || phase.WrapUp? {
      tools := tools + DiagnosticTools(effective);
    }
    if phase.Resolve? || phase.WrapUp? {
      tools := tools + ActionTools(effective);
    }
    tools := tools + [PhaseComplete];
    tools := tools + [WaitForUser];
    if phase == Triage {
      return;
    }
    tools := tools + [EscalateToAgent];
    if phase.Resolve? || phase.WrapUp? {
      tools := tools + [ReportNewIssue];
    }
  }

  lemma DiagnosticToolsAreHome(tool: Tool, category: string)
    ensures tool in DiagnosticTools(category) <==> Home(tool) == Some(category) && !IsAction(tool)
  {
    if Home(tool).Some? && !IsAction(tool) {
      DiagnosticToolAtHome(tool);
    }
  }

  lemma DiagnosticToolAtHome(tool: Tool)
    requires Home(tool).Some? && !IsAction(tool)
    ensures tool in DiagnosticTools(Home(tool).value)
  {
  }

  lemma ActionToolsAreHome(tool: Tool, category: string)
    ensures tool in ActionTools(category) <==> Home(tool) == Some(category) && IsAction(tool)
  {
    if Home(tool).Some? && IsAction(tool) {
      ActionToolAtHome(tool);
    }
  }

  lemma ActionToolAtHome(tool: Tool)
    requires Home(tool).Some? && IsAction(tool)
    ensures tool in ActionTools(Home(tool).value)
  {
  }

  lemma ToolListIsOffer(phase: ConvPhase, category: Option<string>)
    ensures forall tool :: tool in ToolList(phase, category) <==> IsOffered(tool, phase, category)
  {
    forall tool
      ensures tool in ToolList(phase, category) <==> IsOffered(tool, phase, category)
    {
      DiagnosticToolsAreHome(tool, Effective(category));
      ActionToolsAreHome(tool, Effective(category));
    }
  }

  // A category's tools of DIAGNOSE, and those added in RESOLVE.
  predicate Catalogued(category: string, lookups: seq<Tool>, changes: seq<Tool>) {
    (category, lookups, changes) in [
      ("technical_support", [GetTicket, GetAccountHistory, GetServiceStatus, CreateTicket], [UpdateTicket]),
      ("billing", [GetAccountBalance, GetPaymentHistory], [MakePayment, SetupAutopay]),
      ("sales", [GetProductCatalog, GetPromotions], [InitiateUpgrade]),
      ("move_transfer", [GetServiceEligibility], [InitiateServiceMove, CancelService]),
      ("appointment", [GetAppointments], [ConfirmAppointment, CancelAppointment, RescheduleAppointment]),
      ("account", [GetAccountDetails], [UpdateContactInfo])]
  }

  lemma CataloguedTools(category: string, lookups: seq<Tool>, changes: seq<Tool>)
    requires Catalogued(category, lookups, changes)
    ensures category != "" && DiagnosticTools(category) == lookups && ActionTools(category) == changes
  {
  }

  // The lists themselves.
  lemma OfferTable(phase: ConvPhase, category: string, lookups: seq<Tool>, changes: seq<Tool>)
    requires Catalogued(category, lookups, changes)
    ensures ToolList(phase, Some(category)) ==
      match phase {
        case Greeting => [PhaseComplete, WaitForUser, EscalateToAgent]
        case Verify => [LookupCustomer, PhaseComplete, WaitForUser, EscalateToAgent]
        case Triage => [PhaseComplete, WaitForUser]
        case Diagnose => [LookupCustomer] + lookups + [PhaseComplete, WaitForUser, EscalateToAgent]
        case _ => [LookupCustomer] + lookups + changes + [PhaseComplete, WaitForUser, EscalateToAgent, ReportNewIssue]
      }
  {
    hide DiagnosticTools, ActionTools, Catalogued;
    CataloguedTools(category, lookups, changes);
  }

  // Without a category the offer is technical support's.
  lemma UnclassifiedOffer(phase: ConvPhase)
    ensures ToolList(phase, None) == ToolList(phase, Some("")) == ToolList(phase, Some("technical_support"))
  {
  }

  // ---- The dispatch guard ----

  // _PHASE_TOOL_ALLOWLIST, applied to the canonical name.
  predicate GuardAllows(tool: Tool, phase: ConvPhase) {
    match phase
    case Greeting => tool in {PhaseComplete, EscalateToAgent}
    case Verify => tool in {PhaseComplete, EscalateToAgent, LookupCustomer}
    case Triage => tool in {PhaseComplete, LookupCustomer}
    case Diagnose => tool in DiagnoseAllowed()
    case Resolve => tool in DiagnoseAllowed() || tool in ResolveExtra()
    case WrapUp => tool in DiagnoseAllowed() || tool in ResolveExtra()
  }

  function DiagnoseAllowed(): set<Tool> {
    {PhaseComplete, EscalateToAgent, LookupCustomer,
    GetServiceStatus, GetTicket, GetAccountHistory, CreateTicket,
    GetProductCatalog, GetPromotions, GetAccountBalance, GetPaymentHistory,
    GetServiceEligibility, GetAppointments, GetAccountDetails}
  }

  function ResolveExtra(): set<Tool> {
    {ReportNewIssue, UpdateTicket, InitiateUpgrade, MakePayment, SetupAutopay,
    InitiateServiceMove, CancelService, ConfirmAppointment, CancelAppointment,
    RescheduleAppointment, UpdateContactInfo}
  }

  // The two sets in the terms of the offer.
  lemma AllowedByStage(tool: Tool)
    ensures tool in DiagnoseAllowed() <==>
      tool.PhaseComplete? || tool.EscalateToAgent? || tool.LookupCustomer? || (Home(tool).Some? && !IsAction(tool))
    ensures tool in ResolveExtra() <==> tool.ReportNewIssue? || IsAction(tool)
  {
  }

  // Nothing the model is offered is refused at dispatch.
  lemma OfferPassesGuard(tool: Tool, phase: ConvPhase, category: Option<string>)
    requires IsOffered(tool, phase, category)
    ensures Intercepted(tool) || GuardAllows(Canonical(tool), phase)
  {
    hide DiagnoseAllowed, ResolveExtra;
    AllowedByStage(tool);
  }

  // The converse fails, and exactly here: the guard also lets through lookup_customer in TRIAGE, every
  // other category's tools of the same stage, and synonyms, which are never offered, of any tool of the
  // stage. It is no cross-category backstop.
  lemma GuardExcess(tool: Tool, phase: ConvPhase, category: Option<string>)
    requires !Intercepted(tool)
    ensures GuardAllows(Canonical(tool), phase) && !IsOffered(tool, phase, category) <==>
      || (phase.Triage? && tool.LookupCustomer?)
      || (&& Home(Canonical(tool)).Some?
          && (Canonical(tool) != tool || Home(tool).value != Effective(category))
          && IsWorkPhase(phase) && (IsAction(Canonical(tool)) ==> IsClosingPhase(phase)))
  {
    hide DiagnoseAllowed, ResolveExtra, Effective;
    AllowedByStage(Canonical(tool));
  }

  // The hand-over to a human agent is refused in TRIAGE and nowhere else.
  lemma AgentGuard(phase: ConvPhase)
    ensures GuardAllows(Canonical(EscalateToAgent), phase) <==> !phase.Triage?
  {
    hide DiagnoseAllowed, ResolveExtra;
    AllowedByStage(EscalateToAgent);
  }

  // An alternative name is never offered, and passes the guard in the phases that can offer the tool it
  // stands for.
  lemma SynonymsActAlike(name: Tool, tool: Tool, phase: ConvPhase)
    requires (name, tool) in {
      (GetSupportTickets, GetServiceStatus), (GetTickets, GetServiceStatus), (GetOpenTickets, GetServiceStatus),
      (CheckService, GetServiceStatus), (GetAccountStatus, GetServiceStatus),
      (LookupTicket, GetTicket), (GetTicketDetails, GetTicket), (CheckTicket, GetTicket),
      (CloseTicket, UpdateTicket), (ResolveTicket, UpdateTicket)}
    ensures forall category :: !IsOffered(name, phase, category)
    ensures GuardAllows(Canonical(name), phase) <==> exists category :: IsOffered(tool, phase, category)
  {
    hide DiagnoseAllowed, ResolveExtra, GuardAllows, IsOffered;
    SynonymStandsFor(name, tool);
    SupportToolOffered(tool, phase);
    NeverOffered(name, phase);
  }

  lemma SynonymStandsFor(name: Tool, tool: Tool)
    requires (name, tool) in {
      (GetSupportTickets, GetServiceStatus), (GetTickets, GetServiceStatus), (GetOpenTickets, GetServiceStatus),
      (CheckService, GetServiceStatus), (GetAccountStatus, GetServiceStatus),
      (LookupTicket, GetTicket), (GetTicketDetails, GetTicket), (CheckTicket, GetTicket),
      (CloseTicket, UpdateTicket), (ResolveTicket, UpdateTicket)}
    ensures Canonical(name) == tool && Home(tool) == Some("technical_support")
    ensures Home(name).None? && Canonical(name) != name
  {
  }

  lemma SupportToolOffered(tool: Tool, phase: ConvPhase)
    requires Home(tool) == Some("technical_support")
    ensures GuardAllows(tool, phase) <==> exists category :: IsOffered(tool, phase, category)
  {
    hide DiagnoseAllowed, ResolveExtra;
    AllowedByStage(tool);
    assert IsOffered(tool, phase, Some("technical_support")) <==>
      IsWorkPhase(phase) && (IsAction(tool) ==> IsClosingPhase(phase));
  }

  lemma NeverOffered(name: Tool, phase: ConvPhase)
    requires Home(name).None? && Canonical(name) != name
    ensures forall category :: !IsOffered(name, phase, category)
  {
  }
}
