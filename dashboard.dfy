/** The dashboard and agent-memory reads of the mock service layer
    (src/services/mockApi.ts:421-451, 599-658): their integer aggregates over the
    stored clients and campaigns, and the rule that a saved document wins over
    the computed one. The two percentage figures are floating-point averages
    and enter the model as the text they are rendered to. */
module Dashboard {
  import opened Base
  import opened Text
  import opened Types
  import Seeds
  import opened Storage
  import opened Repository
  import opened Workflow

  // ---- Lead total.

  /** `campaigns.reduce((sum, c) => sum + c.kpis.leads, 0)`, folded from the left. */
  function SumLeads(cs: seq<Campaign>): int
    decreases |cs|
  {
    if cs == [] then 0 else SumLeads(cs[..|cs| - 1]) + cs[|cs| - 1].leads
  }

  /** The total of a concatenation is the sum of the totals. */
  lemma {:induction false} SumLeadsConcat(a: seq<Campaign>, b: seq<Campaign>)
    ensures SumLeads(a + b) == SumLeads(a) + SumLeads(b)
    decreases |b|
  {
    if b != [] {
      var n := |b| - 1;
      assert (a + b)[..|a + b| - 1] == a + b[..n];
      assert (a + b)[|a + b| - 1] == b[n];
      SumLeadsConcat(a, b[..n]);
    } else {
      assert a + b == a;
    }
  }

  /** Campaigns without leads add nothing to the total. */
  lemma {:induction false} SumLeadsOfNoLeads(cs: seq<Campaign>)
    requires forall i :: 0 <= i < |cs| ==> cs[i].leads == 0
    ensures SumLeads(cs) == 0
    decreases |cs|
  {
    if cs != [] {
      SumLeadsOfNoLeads(cs[..|cs| - 1]);
    }
  }

  /** The campaigns an implementation creates all start with zero leads. */
  lemma CreatedCampaignsHaveNoLeads(actions: seq<ProposedAction>, clock: nat -> Moment)
    requires AllMaterializable(actions)
    ensures forall i :: 0 <= i < |CreatedCampaigns(actions, clock)| ==> CreatedCampaigns(actions, clock)[i].leads == 0
  {
    var created := CreatedCampaigns(actions, clock);
    CreatedCampaignsFromActions(actions, clock);
    forall i | 0 <= i < |created| ensures created[i].leads == 0 {
      assert created[i] in created;
      var j :| 0 <= j < |actions| && actions[j].kind == CreateCampaign && created[i] == NewCampaign(actions[j], clock(j));
      NewCampaignFields(actions[j], clock(j));
    }
  }

  /** Approving a notification never changes the dashboard's lead total: the
      campaign list grows, but only by campaigns with zero leads. */
  lemma ImplementationKeepsLeadTotal(items: Items, ns: seq<Notification>, id: string, clock: nat -> Moment)
    requires Implementable(ns, id)
    ensures SumLeads(CampaignsIn(AfterImplementation(items, ns, id, clock))) == SumLeads(CampaignsIn(items))
  {
    ImplementationViews(items, ns, id, clock);
    if PlannedActions(ns, id).Some? {
      var actions := PlannedActions(ns, id).value;
      var created := CreatedCampaigns(actions, clock);
      SumLeadsConcat(CampaignsIn(items), created);
      CreatedCampaignsHaveNoLeads(actions, clock);
      SumLeadsOfNoLeads(created);
    }
  }

  // ---- Active clients.

  predicate IsActive(c: Client) { c.status == Active }

  /** `clients.filter(c => c.status === 'active')`: every active client with
      all its copies, in stored order, and no other client. */
  function ActiveClients(cs: seq<Client>): (r: seq<Client>)
    ensures forall c :: c in r <==> c in cs && c.status == Active
    ensures forall c :: multiset(r)[c] == if c.status == Active then multiset(cs)[c] else 0
    ensures SubsequenceOf(r, cs)
  {
    FilterExact(cs, IsActive);
    forall c ensures multiset(Filter(cs, IsActive))[c] == if IsActive(c) then multiset(cs)[c] else 0 {
      FilterCount(cs, IsActive, c);
    }
    Filter(cs, IsActive)
  }

  /** The number of entries of `cs` whose status is active, counted one by one. */
  function CountActive(cs: seq<Client>): nat
  {
    if cs == [] then 0 else (if cs[0].status == Active then 1 else 0) + CountActive(cs[1..])
  }

  /** The "Clientes Ativos" figure: the number of active entries. */
  function ActiveClientCount(cs: seq<Client>): (n: nat)
    ensures n == CountActive(cs)
    ensures n <= |cs|
  {
    ActiveCountIsCount(cs);
    |ActiveClients(cs)|
  }

  /** The filter keeps one entry per active entry. */
  lemma {:induction false} ActiveCountIsCount(cs: seq<Client>)
    ensures |Filter(cs, IsActive)| == CountActive(cs)
    decreases |cs|
  {
    if cs != [] {
      ActiveCountIsCount(cs[1..]);
    }
  }

  /** Every client counts exactly when every client is active. */
  lemma {:induction false} ActiveCountAll(cs: seq<Client>)
    ensures ActiveClientCount(cs) == |cs| <==> forall i :: 0 <= i < |cs| ==> cs[i].status == Active
    decreases |cs|
  {
    if cs != [] {
      ActiveCountAll(cs[1..]);
      assert forall i :: 1 <= i < |cs| ==> cs[i] == cs[1..][i - 1];
    }
  }

  /** `clients.filter(...).map(c => c.name)`: the names the agent memory lists,
      the i-th being the name of the i-th active client. */
  function ActiveClientNames(cs: seq<Client>): (r: seq<string>)
    ensures |r| == ActiveClientCount(cs)
    ensures forall i :: 0 <= i < |r| ==> r[i] == ActiveClients(cs)[i].name
  {
    Project(ActiveClients(cs), (c: Client) => c.name)
  }

  /** A name is listed exactly when some active client carries it. */
  lemma ActiveNameMembership(cs: seq<Client>, name: string)
    ensures name in ActiveClientNames(cs) <==> exists c :: c in cs && c.status == Active && c.name == name
  {
    var active := ActiveClients(cs);
    var names := ActiveClientNames(cs);
    if name in names {
      var i :| 0 <= i < |names| && names[i] == name;
      assert active[i] in active;
    }
    if exists c :: c in cs && c.status == Active && c.name == name {
      var c :| c in cs && c.status == Active && c.name == name;
      var i :| 0 <= i < |active| && active[i] == c;
      assert names[i] == name;
    }
  }

  // ---- The dashboard document.

  /** The dashboard `getDashboardData` builds when none is saved. */
  function ComputedDashboard(clients: seq<Client>, campaigns: seq<Campaign>, conversionText: string, engagementText: string)
    : (d: DashboardData)
    ensures |d.metrics| == 4 && |d.alerts| == 3
  {
    var totalLeads := SumLeads(campaigns);
    DashboardData(
      [Metric("Total de Leads", Count(totalLeads), 12, "users"),
       Metric("Taxa de Conversão Média", Formatted(conversionText), 3, "trending-up"),
       Metric("Engajamento Médio", Formatted(engagementText), 8, "heart"),
       Metric("Clientes Ativos", Count(ActiveClientCount(clients)), 0, "building")],
      [Alert(1, AlertInfo, IntToString(totalLeads) + " novos leads aguardando contato", "2h", Some("client-1")),
       Alert(2, AlertWarning, "Campanha \"Botox\" com baixo CTR (1.2%)", "4h", Some("client-1")),
       Alert(3, AlertSuccess, "Meta mensal de leads atingida", "1d", None)])
  }

  /** The computed dashboard reports the lead total of all campaigns and the
      number of active clients, and its first alert quotes the same lead total. */
  lemma ComputedDashboardFigures(clients: seq<Client>, campaigns: seq<Campaign>, conversionText: string, engagementText: string)
    ensures var d := ComputedDashboard(clients, campaigns, conversionText, engagementText);
            && d.metrics[0].value == Count(SumLeads(campaigns))
            && d.metrics[3].value == Count(ActiveClientCount(clients))
            && d.metrics[3].value.n <= |clients|
            && d.alerts[0].message == IntToString(d.metrics[0].value.n) + " novos leads aguardando contato"
  {
  }

  /** `getDashboardData()` over a store snapshot: the saved document if there
      is a usable one, else the computed one over every stored campaign. */
  function DashboardOf(items: Items, conversionText: string, engagementText: string): (d: DashboardData)
    ensures StoredDashboard(items).Some? ==> d == StoredDashboard(items).value
    ensures StoredDashboard(items).None? ==>
              d == ComputedDashboard(ClientsIn(items), CampaignsIn(items), conversionText, engagementText)
  {
    match StoredDashboard(items)
    case Some(saved) => saved
    case None => ComputedDashboard(ClientsIn(items), CampaignsIn(items), conversionText, engagementText)
  }

  /** `getDashboardData()`. */
  function GetDashboardData(s: Store, conversionText: string, engagementText: string): (d: DashboardData)
    reads s
    ensures StoredDashboard(s.items).Some? ==> d == StoredDashboard(s.items).value
    ensures StoredDashboard(s.items).None? ==>
              d == ComputedDashboard(ClientsIn(s.items), CampaignsIn(s.items), conversionText, engagementText)
  {
    DashboardOf(s.items, conversionText, engagementText)
  }

  /** Once a dashboard is saved, later client and campaign writes no longer show
      on it. */
  lemma SavedDashboardIsFrozen(items: Items, data: DashboardData, key: string, b: Blob, conversionText: string, engagementText: string)
    requires key != DashboardKey
    ensures var saved := Stored(items, DashboardKey, DashboardBlob(data));
            && DashboardOf(saved, conversionText, engagementText) == data
            && DashboardOf(Stored(saved, key, b), conversionText, engagementText) == data
  {
    WriteKeepsOtherViews(Stored(items, DashboardKey, DashboardBlob(data)), key, b);
  }

  /** Without a saved dashboard, approving a notification leaves the lead figure
      as it was. */
  lemma ApprovalKeepsDashboardLeads(items: Items, ns: seq<Notification>, id: string, clock: nat -> Moment,
                                    conversionText: string, engagementText: string)
    requires Implementable(ns, id)
    requires StoredDashboard(items).None?
    ensures StoredDashboard(AfterImplementation(items, ns, id, clock)).None?
            && DashboardOf(AfterImplementation(items, ns, id, clock), conversionText, engagementText).metrics[0]
               == DashboardOf(items, conversionText, engagementText).metrics[0]
  {
    ImplementationKeepsLeadTotal(items, ns, id, clock);
    ImplementationFrame(items, ns, id, clock);
    if PlannedActions(ns, id).Some? {
      AgreeAt(AfterImplementation(items, ns, id, clock), items, {CampaignsKey, LogsKey, NotificationsKey}, DashboardKey);
    }
  }

  /** The seeded campaigns carry 85, 42, 34 and 28 leads. */
  lemma SeedLeadTotal()
    ensures SumLeads(Seeds.Campaigns) == 189
  {
    var cs := Seeds.Campaigns;
    assert SumLeads(cs[..1]) == 85 by { assert cs[..1][..0] == []; }
    assert SumLeads(cs[..2]) == 127 by { assert cs[..2][..1] == cs[..1]; }
    assert SumLeads(cs[..3]) == 161 by { assert cs[..3][..2] == cs[..2]; }
    assert cs[..3] == cs[..|cs| - 1];
  }

  /** Two of the three seeded clients are active. */
  lemma SeedActiveCount()
    ensures ActiveClientCount(Seeds.Clients) == 2
  {
    var clients := Seeds.Clients;
    assert CountActive(clients[2..]) == 0 by { assert clients[2..][1..] == []; }
    assert CountActive(clients[1..]) == 1 by { assert clients[1..][1..] == clients[2..]; }
  }

  /** On a store that was never written, the dashboard counts the 189 seeded
      leads and the two active seeded clients. */
  lemma SeedDashboard(conversionText: string, engagementText: string)
    ensures var d := DashboardOf(map[], conversionText, engagementText);
            && d.metrics[0].value == Count(189)
            && d.metrics[3].value == Count(2)
  {
    SeedLeadTotal();
    SeedActiveCount();
    assert ClientsIn(map[]) == Seeds.Clients && CampaignsIn(map[]) == Seeds.Campaigns;
  }

  // ---- The agent memory document.

  /** `getAgentMemory()` over a store snapshot. */
  function MemoryOf(items: Items): (m: AgentMemory)
    ensures StoredMemory(items).Some? ==> m == StoredMemory(items).value
    ensures StoredMemory(items).None? ==> m.workingMemory.activeClients == ActiveClientNames(ClientsIn(items))
  {
    var saved := StoredMemory(items);
    if saved.Some? then saved.value
    else
      var names := ActiveClientNames(ClientsIn(items));
      var m := Seeds.Memory(names);
      assert m.workingMemory.activeClients == names;
      m
  }

  /** `getAgentMemory()`. */
  function GetAgentMemory(s: Store): (m: AgentMemory)
    reads s
    ensures StoredMemory(s.items).Some? ==> m == StoredMemory(s.items).value
    ensures StoredMemory(s.items).None? ==> m.workingMemory.activeClients == ActiveClientNames(ClientsIn(s.items))
  {
    MemoryOf(s.items)
  }

  /** Until a memory document is saved, the memory's active-client list follows
      every client list that is saved. */
  lemma MemoryFollowsSavedClients(items: Items, clients: seq<Client>)
    requires StoredMemory(items).None?
    ensures MemoryOf(Stored(items, ClientsKey, ClientList(clients))).workingMemory.activeClients
            == ActiveClientNames(clients)
  {
    var after := Stored(items, ClientsKey, ClientList(clients));
    WriteKeepsOtherViews(items, ClientsKey, ClientList(clients));
    assert StoredMemory(after).None?;
    assert ClientsIn(after) == clients;
  }
}
