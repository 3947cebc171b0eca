/** The records the service layer stores and returns, after the interfaces
    of src/types/index.ts. Floating-point fields (conversion rate, engagement,
    cost in dollars) are not carried, and neither are the fields no modelled
    operation reads: client profile and contact data, lead contact data, event
    content, card details, a board's template flag, a notification's
    justification, proposal, trigger and estimated impact, and the action
    parameters other than client, budget, channels and audience. */
module Types {
  import opened Base

  datatype ClientKind = Clinic | Dentist | Aesthetics | Physiotherapy | Psychology | OtherKind
  datatype ClientStatus = Active | Paused | Trial

  datatype Client = Client(
    id: string,
    name: string,
    kind: ClientKind,
    monthlyBudget: int,
    status: ClientStatus)

  datatype Creator = Agent | Human

  /** A campaign. `clientId` and `budget` are optional because a campaign the
      agent creates copies them from a loosely typed parameter bag that may lack
      them; `leads` is the integer part of the KPIs. */
  datatype Campaign = Campaign(
    id: string,
    clientId: Option<string>,
    name: string,
    status: string,
    start: string,
    end: string,
    budget: Option<int>,
    leads: int,
    channel: string,
    targetAudience: Option<seq<string>>,
    createdBy: Creator)

  datatype FunnelStage = FunnelStage(name: string, leads: int, percentage: int)
  datatype Lead = Lead(id: int, clientId: string, name: string, source: string, stage: string, date: string)
  datatype FunnelData = FunnelData(clientId: string, stages: seq<FunnelStage>, recentLeads: seq<Lead>)

  datatype CalendarEvent = CalendarEvent(
    id: string,
    clientId: string,
    title: string,
    date: string,
    channel: string,
    status: string,
    kind: string,
    createdBy: Creator)

  datatype KanbanCard = KanbanCard(id: string, title: string, clientId: Option<string>)
  datatype KanbanList = KanbanList(id: string, title: string, cards: seq<KanbanCard>)
  datatype KanbanBoard = KanbanBoard(id: string, title: string, clientId: Option<string>, lists: seq<KanbanList>)

  datatype NotificationKind = Info | Warning | Critical | Suggestion
  datatype NotificationStatus = Pending | Approved | Rejected | Implemented

  datatype ActionKind = CreateCampaign | CreateContent | MoveCard | SendNotification | SchedulePost

  /** The string the source stores for an action type. */
  function ActionName(k: ActionKind): string
  {
    match k
    case CreateCampaign => "create_campaign"
    case CreateContent => "create_content"
    case MoveCard => "move_card"
    case SendNotification => "send_notification"
    case SchedulePost => "schedule_post"
  }

  /** The fields of an action's parameter bag that the workflow reads. */
  datatype ActionParams = ActionParams(
    clientId: Option<string>,
    budget: Option<int>,
    channels: Option<seq<string>>,
    targetAudience: Option<seq<string>>)

  datatype ProposedAction = ProposedAction(
    id: string,
    kind: ActionKind,
    title: string,
    description: string,
    parameters: Option<ActionParams>,
    estimatedCost: Option<int>,
    estimatedTime: Option<string>)

  datatype Notification = Notification(
    id: string,
    kind: NotificationKind,
    message: string,
    timestamp: string,
    clientId: Option<string>,
    status: NotificationStatus,
    proposedActions: Option<seq<ProposedAction>>)

  /** What the caller of the feedback operation passes in. The decision is the
      free string the caller chose, usually "approve" or "reject". */
  datatype FeedbackInput = FeedbackInput(
    notificationId: string,
    actionId: Option<string>,
    decision: string,
    feedback: Option<string>)

  /** A stored feedback record: the input with a timestamp added. */
  datatype AgentFeedback = AgentFeedback(
    notificationId: string,
    actionId: Option<string>,
    decision: string,
    feedback: Option<string>,
    timestamp: string)

  datatype LogStatus = LogSuccess | LogFailed | LogPending | LogInfo
  datatype Cost = Cost(tokens: Option<int>, apiCalls: Option<int>)

  datatype AgentLogEntry = AgentLogEntry(
    id: string,
    timestamp: string,
    action: string,
    justification: string,
    executionTimeMs: int,
    estimatedCost: Cost,
    status: LogStatus,
    clientId: Option<string>,
    actionType: string)

  datatype MetricValue = Count(n: int) | Formatted(text: string)
  datatype Metric = Metric(title: string, value: MetricValue, change: int, icon: string)
  datatype AlertKind = AlertInfo | AlertWarning | AlertSuccess
  datatype Alert = Alert(id: int, kind: AlertKind, message: string, time: string, clientId: Option<string>)
  datatype DashboardData = DashboardData(metrics: seq<Metric>, alerts: seq<Alert>)

  datatype WorkingMemory = WorkingMemory(
    context: string,
    tasks: seq<string>,
    identifiedIssues: seq<string>,
    activeClients: seq<string>)
  datatype LongTermMemory = LongTermMemory(
    userPreferences: seq<string>,
    trelloHistory: seq<string>,
    patterns: seq<string>,
    clientInsights: map<string, seq<string>>)
  datatype AgentMemory = AgentMemory(workingMemory: WorkingMemory, longTermMemory: LongTermMemory)

  /** One reading of the browser clock: `Date.now()` and the ISO strings the
      source derives from it (`toISOString()`, its date part, and the date part
      seven days later). The model does not relate the strings to the number. */
  datatype Moment = Moment(epochMs: nat, isoTimestamp: string, isoDate: string, isoDateWeekLater: string)
}
