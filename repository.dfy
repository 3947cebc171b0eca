/** The per-collection reads and writes of the mock service layer
    (src/services/mockApi.ts): one blob per key, each read falling back to
    its hardcoded default, each write replacing the whole collection. */
module Repository {
  import opened Base
  import opened Types
  import Seeds
  import opened Storage

  /** The documents kept in the store, one shape per key. */
  datatype Blob =
    | ClientList(clients: seq<Client>)
    | CampaignList(campaigns: seq<Campaign>)
    | FunnelMap(funnels: map<string, FunnelData>)
    | EventList(events: seq<CalendarEvent>)
    | NotificationList(notifications: seq<Notification>)
    | FeedbackList(feedbacks: seq<AgentFeedback>)
    | LogList(logs: seq<AgentLogEntry>)
    | BoardList(boards: seq<KanbanBoard>)
    | DashboardBlob(dashboard: DashboardData)
    | MemoryBlob(memory: AgentMemory)

  type Store = KeyValueStore<Blob>
  type Items = map<string, Entry<Blob>>

  const ClientsKey: string := "clients"
  const CampaignsKey: string := "campaigns"
  const FunnelKey: string := "funnelData"
  const EventsKey: string := "calendarEvents"
  const NotificationsKey: string := "proactiveNotifications"
  const FeedbacksKey: string := "agentFeedbacks"
  const LogsKey: string := "agentLogs"
  const BoardsKey: string := "kanbanBoards"
  const DashboardKey: string := "dashboardData"
  const MemoryKey: string := "agentMemory"

  // ---- Raw reads: `getFromLocalStorage(key, default)` at the shape of each key.

  function ClientsIn(items: Items): seq<Client>
  {
    match Lookup(items, ClientsKey, ClientList(Seeds.Clients))
    case ClientList(cs) => cs
    case _ => Seeds.Clients
  }

  function CampaignsIn(items: Items): seq<Campaign>
  {
    match Lookup(items, CampaignsKey, CampaignList(Seeds.Campaigns))
    case CampaignList(cs) => cs
    case _ => Seeds.Campaigns
  }

  function FunnelsIn(items: Items, default: map<string, FunnelData>): map<string, FunnelData>
  {
    match Lookup(items, FunnelKey, FunnelMap(default))
    case FunnelMap(m) => m
    case _ => default
  }

  function EventsIn(items: Items): seq<CalendarEvent>
  {
    match Lookup(items, EventsKey, EventList(Seeds.CalendarEvents))
    case EventList(es) => es
    case _ => Seeds.CalendarEvents
  }

  function NotificationsIn(items: Items): seq<Notification>
  {
    match Lookup(items, NotificationsKey, NotificationList(Seeds.Notifications))
    case NotificationList(ns) => ns
    case _ => Seeds.Notifications
  }

  function FeedbacksIn(items: Items): seq<AgentFeedback>
  {
    match Lookup(items, FeedbacksKey, FeedbackList([]))
    case FeedbackList(fs) => fs
    case _ => []
  }

  function LogsIn(items: Items, default: seq<AgentLogEntry>): seq<AgentLogEntry>
  {
    match Lookup(items, LogsKey, LogList(default))
    case LogList(ls) => ls
    case _ => default
  }

  function BoardsIn(items: Items): seq<KanbanBoard>
  {
    match Lookup(items, BoardsKey, BoardList(Seeds.KanbanBoards))
    case BoardList(bs) => bs
    case _ => Seeds.KanbanBoards
  }

  /** The dashboard document saved under its key, if there is a usable one. */
  function StoredDashboard(items: Items): Option<DashboardData>
  {
    if DashboardKey in items && items[DashboardKey].Json? && items[DashboardKey].value.DashboardBlob? then
      Some(items[DashboardKey].value.dashboard)
    else None
  }

  /** The agent memory document saved under its key, if there is a usable one. */
  function StoredMemory(items: Items): Option<AgentMemory>
  {
    if MemoryKey in items && items[MemoryKey].Json? && items[MemoryKey].value.MemoryBlob? then
      Some(items[MemoryKey].value.memory)
    else None
  }

  /** A write under one key leaves the view of every other key as it was. */
  lemma WriteKeepsOtherViews(items: Items, key: string, b: Blob)
    ensures key != ClientsKey ==> ClientsIn(Stored(items, key, b)) == ClientsIn(items)
    ensures key != CampaignsKey ==> CampaignsIn(Stored(items, key, b)) == CampaignsIn(items)
    ensures key != EventsKey ==> EventsIn(Stored(items, key, b)) == EventsIn(items)
    ensures key != NotificationsKey ==> NotificationsIn(Stored(items, key, b)) == NotificationsIn(items)
    ensures key != FeedbacksKey ==> FeedbacksIn(Stored(items, key, b)) == FeedbacksIn(items)
    ensures key != BoardsKey ==> BoardsIn(Stored(items, key, b)) == BoardsIn(items)
    ensures forall d :: key != LogsKey ==> LogsIn(Stored(items, key, b), d) == LogsIn(items, d)
    ensures forall d :: key != FunnelKey ==> FunnelsIn(Stored(items, key, b), d) == FunnelsIn(items, d)
    ensures key != DashboardKey ==> StoredDashboard(Stored(items, key, b)) == StoredDashboard(items)
    ensures key != MemoryKey ==> StoredMemory(Stored(items, key, b)) == StoredMemory(items)
  {
    var after := Stored(items, key, b);
    if key != ClientsKey { WriteKeepsOtherKeys(items, key, ClientsKey, b, ClientList(Seeds.Clients)); }
    if key != CampaignsKey { WriteKeepsOtherKeys(items, key, CampaignsKey, b, CampaignList(Seeds.Campaigns)); }
    if key != EventsKey { WriteKeepsOtherKeys(items, key, EventsKey, b, EventList(Seeds.CalendarEvents)); }
    if key != NotificationsKey {
      WriteKeepsOtherKeys(items, key, NotificationsKey, b, NotificationList(Seeds.Notifications));
    }
    if key != FeedbacksKey { WriteKeepsOtherKeys(items, key, FeedbacksKey, b, FeedbackList([])); }
    if key != BoardsKey { WriteKeepsOtherKeys(items, key, BoardsKey, b, BoardList(Seeds.KanbanBoards)); }
    forall d | key != LogsKey ensures LogsIn(after, d) == LogsIn(items, d) {
      WriteKeepsOtherKeys(items, key, LogsKey, b, LogList(d));
    }
    forall d | key != FunnelKey ensures FunnelsIn(after, d) == FunnelsIn(items, d) {
      WriteKeepsOtherKeys(items, key, FunnelKey, b, FunnelMap(d));
    }
  }

  /** A write under a key of `keys` leaves the store outside `keys` as it was. */
  lemma WriteInside(items: Items, key: string, b: Blob, keys: set<string>)
    requires key in keys
    ensures Stored(items, key, b) - keys == items - keys
  {
  }

  // ---- Per-client list reads.

  /** `clientId ? items.filter(x => x.clientId === clientId) : items`: a missing
      or empty client id is falsy and selects the whole list. */
  function ForClient<T(!new)>(items: seq<T>, owner: T -> Option<string>, clientId: Option<string>): (r: seq<T>)
    ensures clientId == None || clientId == Some("") ==> r == items
    ensures SubsequenceOf(r, items)
    ensures clientId.Some? && clientId.value != "" ==>
              forall x :: x in r <==> x in items && owner(x) == clientId
    ensures clientId.Some? && clientId.value != "" ==>
              forall x :: multiset(r)[x] == if owner(x) == clientId then multiset(items)[x] else 0
  {
    if clientId.None? || clientId.value == "" then SubsequenceOfSelf(items); items
    else
      var p := (x: T) => owner(x) == clientId;
      FilterExact(items, p);
      forall x ensures multiset(Filter(items, p))[x] == if p(x) then multiset(items)[x] else 0 {
        FilterCount(items, p, x);
      }
      Filter(items, p)
  }

  /** Appending to a stored list appends to each client's view of it, so the
      per-client views keep the stored order. */
  lemma ForClientAppend<T(!new)>(a: seq<T>, b: seq<T>, owner: T -> Option<string>, clientId: Option<string>)
    ensures ForClient(a + b, owner, clientId) == ForClient(a, owner, clientId) + ForClient(b, owner, clientId)
  {
    if clientId.Some? && clientId.value != "" {
      FilterConcat(a, b, (x: T) => owner(x) == clientId);
    }
  }

  /** Selecting a client twice is selecting it once. */
  lemma ForClientIdempotent<T(!new)>(items: seq<T>, owner: T -> Option<string>, clientId: Option<string>)
    ensures ForClient(ForClient(items, owner, clientId), owner, clientId) == ForClient(items, owner, clientId)
  {
    if clientId.Some? && clientId.value != "" {
      FilterIdempotent(items, (x: T) => owner(x) == clientId);
    }
  }

  function CampaignOwner(c: Campaign): Option<string> { c.clientId }
  function EventOwner(e: CalendarEvent): Option<string> { Some(e.clientId) }
  function BoardOwner(b: KanbanBoard): Option<string> { b.clientId }

  /** `getClients()`. */
  function GetClients(s: Store): (r: seq<Client>)
    reads s
    ensures ClientsKey !in s.items ==> r == Seeds.Clients
  {
    ClientsIn(s.items)
  }

  /** `getCampaigns(clientId?)`. */
  function GetCampaigns(s: Store, clientId: Option<string>): (r: seq<Campaign>)
    reads s
    ensures clientId == None || clientId == Some("") ==> r == CampaignsIn(s.items)
    ensures clientId.Some? && clientId.value != "" ==>
              forall c :: c in r <==> c in CampaignsIn(s.items) && c.clientId == clientId
  {
    ForClient(CampaignsIn(s.items), CampaignOwner, clientId)
  }

  /** `getCalendarEvents(clientId?)`. */
  function GetCalendarEvents(s: Store, clientId: Option<string>): (r: seq<CalendarEvent>)
    reads s
    ensures clientId == None || clientId == Some("") ==> r == EventsIn(s.items)
    ensures clientId.Some? && clientId.value != "" ==>
              forall e :: e in r <==> e in EventsIn(s.items) && Some(e.clientId) == clientId
  {
    ForClient(EventsIn(s.items), EventOwner, clientId)
  }

  /** `getKanbanBoards(clientId?)`. */
  function GetKanbanBoards(s: Store, clientId: Option<string>): (r: seq<KanbanBoard>)
    reads s
    ensures clientId == None || clientId == Some("") ==> r == BoardsIn(s.items)
    ensures clientId.Some? && clientId.value != "" ==>
              forall b :: b in r <==> b in BoardsIn(s.items) && b.clientId == clientId
  {
    ForClient(BoardsIn(s.items), BoardOwner, clientId)
  }

  /** `getProactiveNotifications()`. */
  function GetProactiveNotifications(s: Store): (r: seq<Notification>)
    reads s
    ensures NotificationsKey !in s.items ==> r == Seeds.Notifications
  {
    NotificationsIn(s.items)
  }

  /** `getAgentLogs()`: note that its fallback is the seed log list. */
  function GetAgentLogs(s: Store): (r: seq<AgentLogEntry>)
    reads s
    ensures LogsKey !in s.items ==> r == Seeds.Logs
  {
    LogsIn(s.items, Seeds.Logs)
  }

  // ---- Funnel data: one record per client in a single map blob.

  /** The funnel record of one client in a funnel map, or the empty record. */
  function FunnelFor(all: map<string, FunnelData>, clientId: string): (r: FunnelData)
    ensures clientId in all ==> r == all[clientId]
    ensures clientId !in all ==> r == FunnelData(clientId, [], [])
  {
    if clientId in all then all[clientId] else FunnelData(clientId, [], [])
  }

  /** `getFunnelData(clientId)`. */
  function GetFunnelData(s: Store, clientId: string): (r: FunnelData)
    reads s
    ensures var all := FunnelsIn(s.items, Seeds.Funnels);
            r == if clientId in all then all[clientId] else FunnelData(clientId, [], [])
  {
    FunnelFor(FunnelsIn(s.items, Seeds.Funnels), clientId)
  }

  /** `saveFunnelData(clientId, funnelData)`. The map it updates is read with
      an empty fallback, not with the seed map. */
  method SaveFunnelData(s: Store, clientId: string, data: FunnelData)
    modifies s
    ensures s.items == Stored(old(s.items), FunnelKey, FunnelMap(old(FunnelsIn(s.items, map[]))[clientId := data]))
    ensures GetFunnelData(s, clientId) == data
    ensures forall c :: c != clientId ==>
              GetFunnelData(s, c) == FunnelFor(old(FunnelsIn(s.items, map[])), c)
  {
    var all := FunnelsIn(s.items, map[]);
    all := all[clientId := data];
    s.Set(FunnelKey, FunnelMap(all));
  }

  /** On a store that never saved funnel data, saving one client's funnel makes
      every other client's seeded funnel read as the empty record. */
  lemma FirstFunnelSaveForgetsSeeds(items: Items, clientId: string, data: FunnelData, other: string)
    requires FunnelKey !in items
    requires other != clientId
    ensures FunnelFor(FunnelsIn(items, Seeds.Funnels), other) == FunnelFor(Seeds.Funnels, other)
    ensures FunnelFor(FunnelsIn(Stored(items, FunnelKey, FunnelMap(FunnelsIn(items, map[])[clientId := data])), Seeds.Funnels), other)
            == FunnelData(other, [], [])
  {
  }

  // ---- Whole-collection writes: `saveX(list)` is `setToLocalStorage(key, list)`.

  method SaveClients(s: Store, clients: seq<Client>)
    modifies s
    ensures s.items == Stored(old(s.items), ClientsKey, ClientList(clients))
    ensures GetClients(s) == clients
  {
    s.Set(ClientsKey, ClientList(clients));
  }

  method SaveCampaigns(s: Store, campaigns: seq<Campaign>)
    modifies s
    ensures s.items == Stored(old(s.items), CampaignsKey, CampaignList(campaigns))
    ensures GetCampaigns(s, None) == campaigns
  {
    s.Set(CampaignsKey, CampaignList(campaigns));
  }

  method SaveCalendarEvents(s: Store, events: seq<CalendarEvent>)
    modifies s
    ensures s.items == Stored(old(s.items), EventsKey, EventList(events))
    ensures GetCalendarEvents(s, None) == events
  {
    s.Set(EventsKey, EventList(events));
  }

  method SaveKanbanBoards(s: Store, boards: seq<KanbanBoard>)
    modifies s
    ensures s.items == Stored(old(s.items), BoardsKey, BoardList(boards))
    ensures GetKanbanBoards(s, None) == boards
  {
    s.Set(BoardsKey, BoardList(boards));
  }

  method SaveProactiveNotifications(s: Store, notifications: seq<Notification>)
    modifies s
    ensures s.items == Stored(old(s.items), NotificationsKey, NotificationList(notifications))
    ensures GetProactiveNotifications(s) == notifications
  {
    s.Set(NotificationsKey, NotificationList(notifications));
  }

  method SaveAgentLogs(s: Store, logs: seq<AgentLogEntry>)
    modifies s
    ensures s.items == Stored(old(s.items), LogsKey, LogList(logs))
    ensures GetAgentLogs(s) == logs
  {
    s.Set(LogsKey, LogList(logs));
  }

  method SaveDashboardData(s: Store, data: DashboardData)
    modifies s
    ensures s.items == Stored(old(s.items), DashboardKey, DashboardBlob(data))
    ensures StoredDashboard(s.items) == Some(data)
  {
    s.Set(DashboardKey, DashboardBlob(data));
  }

  method SaveAgentMemory(s: Store, memory: AgentMemory)
    modifies s
    ensures s.items == Stored(old(s.items), MemoryKey, MemoryBlob(memory))
    ensures StoredMemory(s.items) == Some(memory)
  {
    s.Set(MemoryKey, MemoryBlob(memory));
  }
}
