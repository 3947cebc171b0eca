/** The notification decision workflow of the mock service layer
    (src/services/mockApi.ts:326-418): recording a decision on a proactive
    notification and, on approval, carrying out its proposed actions. The
    workflow does not check the notification's current status, so a
    notification can be decided, and implemented, any number of times. */
module Workflow {
  import opened Base
  import opened Text
  import opened Types
  import opened Storage
  import opened Repository

  // ---- Status updates.

  /** The status a decision string gives a notification. */
  function StatusFor(decision: string): (st: NotificationStatus)
    ensures st == Approved <==> decision == "approve"
    ensures st == Rejected <==> decision == "reject"
    ensures st == Pending <==> decision != "approve" && decision != "reject"
    ensures st != Implemented
  {
    if decision == "approve" then Approved
    else if decision == "reject" then Rejected
    else Pending
  }

  /** `notifications.map(n => n.id === id ? {...n, status} : n)`. */
  function SetStatus(ns: seq<Notification>, id: string, st: NotificationStatus): (r: seq<Notification>)
    ensures |r| == |ns|
    ensures forall i :: 0 <= i < |ns| ==> r[i].id == ns[i].id && r[i].proposedActions == ns[i].proposedActions
  {
    Project(ns, (n: Notification) => if n.id == id then n.(status := st) else n)
  }

  /** Exactly the notifications carrying the id take the new status; every field
      of every other notification, and every other field of the matching ones,
      is kept. */
  lemma SetStatusFrame(ns: seq<Notification>, id: string, st: NotificationStatus)
    ensures forall i :: 0 <= i < |ns| && ns[i].id == id ==> SetStatus(ns, id, st)[i] == ns[i].(status := st)
    ensures forall i :: 0 <= i < |ns| && ns[i].id != id ==> SetStatus(ns, id, st)[i] == ns[i]
  {
  }

  /** A later status update of the same id overrides an earlier one. */
  lemma SetStatusOverrides(ns: seq<Notification>, id: string, a: NotificationStatus, b: NotificationStatus)
    ensures SetStatus(SetStatus(ns, id, a), id, b) == SetStatus(ns, id, b)
  {
    var once, twice, direct := SetStatus(ns, id, a), SetStatus(SetStatus(ns, id, a), id, b), SetStatus(ns, id, b);
    forall i | 0 <= i < |ns| ensures twice[i] == direct[i] {
      if ns[i].id == id {
        assert once[i] == ns[i].(status := a);
      } else {
        assert once[i] == ns[i];
      }
    }
  }

  /** An update for an id no notification carries changes nothing. */
  lemma SetStatusUnknownId(ns: seq<Notification>, id: string, st: NotificationStatus)
    requires forall i :: 0 <= i < |ns| ==> ns[i].id != id
    ensures SetStatus(ns, id, st) == ns
  {
  }

  // ---- Looking up the notification to implement.

  /** `notifications.find(n => n.id === id)`: the first notification with the id. */
  function Find(ns: seq<Notification>, id: string): (r: Option<Notification>)
    ensures r.None? <==> forall i :: 0 <= i < |ns| ==> ns[i].id != id
    ensures r.Some? ==> r.value.id == id
  {
    if ns == [] then None
    else if ns[0].id == id then Some(ns[0])
    else
      var r := Find(ns[1..], id);
      assert forall i :: 1 <= i < |ns| ==> ns[i] == ns[1..][i - 1];
      r
  }

  /** The notification found is the first one carrying the id. */
  lemma {:induction false} FindFirst(ns: seq<Notification>, id: string)
    ensures Find(ns, id).Some? ==>
              exists i :: 0 <= i < |ns| && ns[i] == Find(ns, id).value && forall j :: 0 <= j < i ==> ns[j].id != id
  {
    if ns != [] && ns[0].id != id {
      FindFirst(ns[1..], id);
      if Find(ns, id).Some? {
        var i :| 0 <= i < |ns[1..]| && ns[1..][i] == Find(ns, id).value && forall j :: 0 <= j < i ==> ns[1..][j].id != id;
        assert ns[i + 1] == ns[1..][i];
        assert forall j :: 1 <= j < i + 1 ==> ns[j] == ns[1..][j - 1];
      }
    }
  }

  /** Finding an id after its status was updated finds the same notification
      with the new status. */
  lemma {:induction false} FindAfterSetStatus(ns: seq<Notification>, id: string, st: NotificationStatus)
    ensures Find(SetStatus(ns, id, st), id) == match Find(ns, id)
                                              case None => None
                                              case Some(n) => Some(n.(status := st))
  {
    if ns != [] {
      var r := SetStatus(ns, id, st);
      assert r[1..] == SetStatus(ns[1..], id, st);
      FindAfterSetStatus(ns[1..], id, st);
    }
  }

  /** The actions implementation would carry out: none when the id is unknown
      or the notification has no `proposedActions`. */
  function PlannedActions(ns: seq<Notification>, id: string): Option<seq<ProposedAction>>
  {
    match Find(ns, id)
    case None => None
    case Some(n) => n.proposedActions
  }

  lemma PlannedActionsAfterSetStatus(ns: seq<Notification>, id: string, st: NotificationStatus)
    ensures PlannedActions(SetStatus(ns, id, st), id) == PlannedActions(ns, id)
  {
    FindAfterSetStatus(ns, id, st);
  }

  // ---- Materialising one action.

  /** A `create_campaign` action must carry parameters with a `channels` list:
      the source dereferences both and would throw otherwise. */
  predicate Materializable(a: ProposedAction)
  {
    a.kind == CreateCampaign ==> a.parameters.Some? && a.parameters.value.channels.Some?
  }

  predicate AllMaterializable(actions: seq<ProposedAction>)
  {
    forall i :: 0 <= i < |actions| ==> Materializable(actions[i])
  }

  /** What implementing `id` in `ns` demands of the stored actions. */
  predicate Implementable(ns: seq<Notification>, id: string)
  {
    match PlannedActions(ns, id)
    case None => true
    case Some(actions) => AllMaterializable(actions)
  }

  /** The campaign a `create_campaign` action creates at clock reading `m`. */
  function NewCampaign(a: ProposedAction, m: Moment): (c: Campaign)
    requires a.kind == CreateCampaign && Materializable(a)
  {
    var p := a.parameters.value;
    Campaign(
      "campaign-" + NatToString(m.epochMs),
      p.clientId,
      a.title,
      "Ativa",
      m.isoDate,
      m.isoDateWeekLater,
      p.budget,
      0,
      Join(p.channels.value, " + "),
      p.targetAudience,
      Agent)
  }

  /** `action.parameters?.clientId`. */
  function ActionClient(a: ProposedAction): Option<string>
  {
    if a.parameters.Some? then a.parameters.value.clientId else None
  }

  /** The log entry written for one implemented action of notification `id`. */
  function NewLog(a: ProposedAction, id: string, m: Moment): (l: AgentLogEntry)
  {
    AgentLogEntry(
      "log-" + NatToString(m.epochMs),
      m.isoTimestamp,
      "Implementação: " + a.title,
      "Ação aprovada pelo usuário para notificação " + id,
      500,
      Cost(Some(200), None),
      LogSuccess,
      ActionClient(a),
      ActionName(a.kind))
  }

  // ---- The whole action loop, as functions of the action list. The clock
  //      reading while the action at index i is processed is clock(i).

  /** The campaigns the loop appends, in action order. */
  function CreatedCampaigns(actions: seq<ProposedAction>, clock: nat -> Moment): seq<Campaign>
    requires AllMaterializable(actions)
    decreases |actions|
  {
    if actions == [] then []
    else
      var n := |actions| - 1;
      CreatedCampaigns(actions[..n], clock)
        + (if actions[n].kind == CreateCampaign then [NewCampaign(actions[n], clock(n))] else [])
  }

  /** The log entries the loop appends, in action order. */
  function ImplementationLogs(actions: seq<ProposedAction>, id: string, clock: nat -> Moment): seq<AgentLogEntry>
    decreases |actions|
  {
    if actions == [] then []
    else
      var n := |actions| - 1;
      ImplementationLogs(actions[..n], id, clock) + [NewLog(actions[n], id, clock(n))]
  }

  /** The number of `create_campaign` actions. */
  function CreateCount(actions: seq<ProposedAction>): nat
    decreases |actions|
  {
    if actions == [] then 0
    else
      var n := |actions| - 1;
      CreateCount(actions[..n]) + (if actions[n].kind == CreateCampaign then 1 else 0)
  }

  /** One log per action, the i-th for the i-th action. */
  lemma {:induction false} ImplementationLogsExact(actions: seq<ProposedAction>, id: string, clock: nat -> Moment)
    ensures |ImplementationLogs(actions, id, clock)| == |actions|
    ensures forall i :: 0 <= i < |actions| ==> ImplementationLogs(actions, id, clock)[i] == NewLog(actions[i], id, clock(i))
    decreases |actions|
  {
    if actions != [] {
      var n := |actions| - 1;
      ImplementationLogsExact(actions[..n], id, clock);
    }
  }

  /** Every implementation log records success, the action's type, its target
      client, and an "Implementação: " title. */
  lemma ImplementationLogFields(actions: seq<ProposedAction>, id: string, clock: nat -> Moment, i: int)
    requires 0 <= i < |actions|
    ensures |ImplementationLogs(actions, id, clock)| == |actions|
    ensures var l := ImplementationLogs(actions, id, clock)[i];
            && l.status == LogSuccess
            && l.actionType == ActionName(actions[i].kind)
            && l.clientId == ActionClient(actions[i])
            && l.action == "Implementação: " + actions[i].title
  {
    ImplementationLogsExact(actions, id, clock);
  }

  /** As many campaigns are created as there are `create_campaign` actions. */
  lemma {:induction false} CreatedCampaignsCount(actions: seq<ProposedAction>, clock: nat -> Moment)
    requires AllMaterializable(actions)
    ensures |CreatedCampaigns(actions, clock)| == CreateCount(actions)
    ensures CreateCount(actions) <= |actions|
    decreases |actions|
  {
    if actions != [] {
      var n := |actions| - 1;
      CreatedCampaignsCount(actions[..n], clock);
    }
  }

  /** Every created campaign comes from a `create_campaign` action, built from
      that action's parameters and title, and every such action creates one. */
  lemma {:induction false} CreatedCampaignsFromActions(actions: seq<ProposedAction>, clock: nat -> Moment)
    requires AllMaterializable(actions)
    ensures forall c :: c in CreatedCampaigns(actions, clock) ==>
              exists i :: 0 <= i < |actions| && actions[i].kind == CreateCampaign && c == NewCampaign(actions[i], clock(i))
    ensures forall i :: 0 <= i < |actions| && actions[i].kind == CreateCampaign ==>
              NewCampaign(actions[i], clock(i)) in CreatedCampaigns(actions, clock)
    decreases |actions|
  {
    if actions != [] {
      var n := |actions| - 1;
      var prefix := actions[..n];
      assert AllMaterializable(prefix) by {
        forall i | 0 <= i < |prefix| ensures Materializable(prefix[i]) {
          assert prefix[i] == actions[i];
        }
      }
      CreatedCampaignsFromActions(prefix, clock);
      forall c | c in CreatedCampaigns(actions, clock)
        ensures exists i :: 0 <= i < |actions| && actions[i].kind == CreateCampaign && c == NewCampaign(actions[i], clock(i))
      {
        if c in CreatedCampaigns(prefix, clock) {
          var i :| 0 <= i < |prefix| && prefix[i].kind == CreateCampaign && c == NewCampaign(prefix[i], clock(i));
          assert prefix[i] == actions[i];
        } else {
          assert actions[n].kind == CreateCampaign && c == NewCampaign(actions[n], clock(n));
        }
      }
      forall i | 0 <= i < |actions| && actions[i].kind == CreateCampaign
        ensures NewCampaign(actions[i], clock(i)) in CreatedCampaigns(actions, clock)
      {
        if i < n {
          assert prefix[i] == actions[i];
        }
      }
    }
  }

  /** Each created campaign is active, has zero leads and is marked as made by
      the agent; its name, client, budget and channel come from its action. */
  lemma NewCampaignFields(a: ProposedAction, m: Moment)
    requires a.kind == CreateCampaign && Materializable(a)
    ensures var c := NewCampaign(a, m);
            && c.name == a.title
            && c.clientId == a.parameters.value.clientId
            && c.budget == a.parameters.value.budget
            && c.status == "Ativa"
            && c.leads == 0
            && c.channel == Join(a.parameters.value.channels.value, " + ")
            && c.createdBy == Agent
  {
  }

  /** A notification without `create_campaign` actions creates no campaign. */
  lemma {:induction false} NoCreateNoCampaign(actions: seq<ProposedAction>, clock: nat -> Moment)
    requires AllMaterializable(actions)
    requires forall i :: 0 <= i < |actions| ==> actions[i].kind != CreateCampaign
    ensures CreatedCampaigns(actions, clock) == []
    decreases |actions|
  {
    if actions != [] {
      var n := |actions| - 1;
      assert forall i :: 0 <= i < n ==> actions[..n][i] == actions[i];
      NoCreateNoCampaign(actions[..n], clock);
    }
  }

  /** The state of one store key is the same in two snapshots. */
  ghost predicate SameEntry(a: Items, b: Items, k: string)
  {
    (k in a <==> k in b) && (k in a ==> a[k] == b[k])
  }

  /** Two snapshots that agree outside `keys` agree outside any larger set. */
  lemma FrameWiden(a: Items, b: Items, keys: set<string>, wider: set<string>)
    requires a - keys == b - keys
    requires keys <= wider
    ensures a - wider == b - wider
  {
    assert a - wider == (a - keys) - wider;
    assert b - wider == (b - keys) - wider;
  }

  /** Snapshots that agree outside `keys` agree on every key not in `keys`. */
  lemma AgreeAt(a: Items, b: Items, keys: set<string>, k: string)
    requires a - keys == b - keys
    requires k !in keys
    ensures SameEntry(a, b, k)
  {
    assert k in a <==> k in a - keys;
    assert k in b <==> k in b - keys;
    if k in a {
      assert a[k] == (a - keys)[k];
      assert b[k] == (b - keys)[k];
    }
  }

  // ---- The store as the action loop leaves it.

  /** The store after the loop body has handled action `a` at clock reading `m`:
      a `create_campaign` action appends its campaign, and every action appends
      its log entry to the logs read with an empty fallback. */
  function Step(items: Items, a: ProposedAction, id: string, m: Moment): Items
    requires Materializable(a)
  {
    var withCampaign := WithCampaign(items, a, m);
    Stored(withCampaign, LogsKey, LogList(LogsIn(withCampaign, []) + [NewLog(a, id, m)]))
  }

  /** The store after the campaign half of the loop body. */
  function WithCampaign(items: Items, a: ProposedAction, m: Moment): Items
    requires Materializable(a)
  {
    if a.kind == CreateCampaign then Stored(items, CampaignsKey, CampaignList(CampaignsIn(items) + [NewCampaign(a, m)]))
    else items
  }

  /** The store after the loop has handled every action of `actions`. */
  function Run(items: Items, actions: seq<ProposedAction>, id: string, clock: nat -> Moment): Items
    requires AllMaterializable(actions)
    decreases |actions|
  {
    if actions == [] then items
    else
      var n := |actions| - 1;
      Step(Run(items, actions[..n], id, clock), actions[n], id, clock(n))
  }

  /** One pass of the loop body appends one campaign for a `create_campaign`
      action and one log entry for every action. */
  lemma StepViews(items: Items, a: ProposedAction, id: string, m: Moment)
    requires Materializable(a)
    ensures CampaignsIn(Step(items, a, id, m))
            == CampaignsIn(items) + (if a.kind == CreateCampaign then [NewCampaign(a, m)] else [])
    ensures LogsIn(Step(items, a, id, m), []) == LogsIn(items, []) + [NewLog(a, id, m)]
  {
    StepCampaigns(items, a, id, m);
    StepLogs(items, a, id, m);
  }

  /** The campaign half of `StepViews`. */
  lemma StepCampaigns(items: Items, a: ProposedAction, id: string, m: Moment)
    requires Materializable(a)
    ensures CampaignsIn(Step(items, a, id, m))
            == CampaignsIn(items) + (if a.kind == CreateCampaign then [NewCampaign(a, m)] else [])
  {
    var w := WithCampaign(items, a, m);
    if a.kind == CreateCampaign {
      assert CampaignsIn(w) == CampaignsIn(items) + [NewCampaign(a, m)];
    }
    WriteKeepsOtherViews(w, LogsKey, LogList(LogsIn(w, []) + [NewLog(a, id, m)]));
  }

  /** The log half of `StepViews`. */
  lemma StepLogs(items: Items, a: ProposedAction, id: string, m: Moment)
    requires Materializable(a)
    ensures LogsIn(Step(items, a, id, m), []) == LogsIn(items, []) + [NewLog(a, id, m)]
  {
    var w := WithCampaign(items, a, m);
    if a.kind == CreateCampaign {
      var b := CampaignList(CampaignsIn(items) + [NewCampaign(a, m)]);
      WriteKeepsOtherViews(items, CampaignsKey, b);
    }
    assert LogsIn(w, []) == LogsIn(items, []);
  }

  /** One pass of the loop body writes the log key, writes the campaign key
      only for a `create_campaign` action, and no other key. */
  lemma StepFrame(items: Items, a: ProposedAction, id: string, m: Moment)
    requires Materializable(a)
    ensures a.kind != CreateCampaign ==> SameEntry(Step(items, a, id, m), items, CampaignsKey)
    ensures LogsKey in Step(items, a, id, m) && Step(items, a, id, m)[LogsKey].Json?
    ensures Step(items, a, id, m) - {CampaignsKey, LogsKey} == items - {CampaignsKey, LogsKey}
  {
    var withCampaign := items;
    if a.kind == CreateCampaign {
      var b := CampaignList(CampaignsIn(items) + [NewCampaign(a, m)]);
      withCampaign := Stored(items, CampaignsKey, b);
      WriteInside(items, CampaignsKey, b, {CampaignsKey, LogsKey});
    }
    var l := LogList(LogsIn(withCampaign, []) + [NewLog(a, id, m)]);
    WriteInside(withCampaign, LogsKey, l, {CampaignsKey, LogsKey});
  }

  /** The whole loop appends the created campaigns, in action order. */
  lemma {:induction false} RunCampaigns(items: Items, actions: seq<ProposedAction>, id: string, clock: nat -> Moment)
    requires AllMaterializable(actions)
    ensures CampaignsIn(Run(items, actions, id, clock)) == CampaignsIn(items) + CreatedCampaigns(actions, clock)
    decreases |actions|
  {
    if actions != [] {
      var n := |actions| - 1;
      var prev := Run(items, actions[..n], id, clock);
      var added := if actions[n].kind == CreateCampaign then [NewCampaign(actions[n], clock(n))] else [];
      assert CreatedCampaigns(actions, clock) == CreatedCampaigns(actions[..n], clock) + added;
      RunCampaigns(items, actions[..n], id, clock);
      StepCampaigns(prev, actions[n], id, clock(n));
    }
  }

  /** The whole loop appends the implementation logs, in action order. */
  lemma {:induction false} RunLogs(items: Items, actions: seq<ProposedAction>, id: string, clock: nat -> Moment)
    requires AllMaterializable(actions)
    ensures LogsIn(Run(items, actions, id, clock), []) == LogsIn(items, []) + ImplementationLogs(actions, id, clock)
    decreases |actions|
  {
    if actions != [] {
      var n := |actions| - 1;
      var prev := Run(items, actions[..n], id, clock);
      var l := NewLog(actions[n], id, clock(n));
      assert ImplementationLogs(actions, id, clock) == ImplementationLogs(actions[..n], id, clock) + [l];
      RunLogs(items, actions[..n], id, clock);
      StepLogs(prev, actions[n], id, clock(n));
    }
  }

  /** The whole loop appends the created campaigns and the implementation logs,
      in action order. */
  lemma RunViews(items: Items, actions: seq<ProposedAction>, id: string, clock: nat -> Moment)
    requires AllMaterializable(actions)
    ensures CampaignsIn(Run(items, actions, id, clock)) == CampaignsIn(items) + CreatedCampaigns(actions, clock)
    ensures LogsIn(Run(items, actions, id, clock), []) == LogsIn(items, []) + ImplementationLogs(actions, id, clock)
  {
    RunCampaigns(items, actions, id, clock);
    RunLogs(items, actions, id, clock);
  }

  /** The whole loop touches only the campaign and log keys, the campaign key
      only when some action is a `create_campaign` one, and leaves a parsed log
      list behind as soon as there is one action. */
  lemma {:induction false} RunFrame(items: Items, actions: seq<ProposedAction>, id: string, clock: nat -> Moment)
    requires AllMaterializable(actions)
    ensures CreateCount(actions) == 0 ==> SameEntry(Run(items, actions, id, clock), items, CampaignsKey)
    ensures actions != [] ==> LogsKey in Run(items, actions, id, clock) && Run(items, actions, id, clock)[LogsKey].Json?
    ensures Run(items, actions, id, clock) - {CampaignsKey, LogsKey} == items - {CampaignsKey, LogsKey}
    decreases |actions|
  {
    if actions != [] {
      var n := |actions| - 1;
      RunFrame(items, actions[..n], id, clock);
      StepFrame(Run(items, actions[..n], id, clock), actions[n], id, clock(n));
    }
  }

  /** The store after `implementApprovedActions(id)`, where `ns` is the
      notification list it reads first: unchanged when there is nothing to
      implement, otherwise the loop's writes followed by the write of `ns` with
      the notification marked implemented. */
  function AfterImplementation(items: Items, ns: seq<Notification>, id: string, clock: nat -> Moment): Items
    requires Implementable(ns, id)
  {
    match PlannedActions(ns, id)
    case None => items
    case Some(actions) =>
      Stored(Run(items, actions, id, clock), NotificationsKey, NotificationList(SetStatus(ns, id, Implemented)))
  }

  /** Implementation appends one campaign per `create_campaign` action and one
      log per action and marks the notification implemented; with nothing to
      implement it changes nothing. */
  lemma ImplementationViews(items: Items, ns: seq<Notification>, id: string, clock: nat -> Moment)
    requires Implementable(ns, id)
    ensures PlannedActions(ns, id).None? ==> AfterImplementation(items, ns, id, clock) == items
    ensures PlannedActions(ns, id).Some? ==>
              var actions := PlannedActions(ns, id).value;
              var r := AfterImplementation(items, ns, id, clock);
              && AllMaterializable(actions)
              && CampaignsIn(r) == CampaignsIn(items) + CreatedCampaigns(actions, clock)
              && LogsIn(r, []) == LogsIn(items, []) + ImplementationLogs(actions, id, clock)
              && NotificationsIn(r) == SetStatus(ns, id, Implemented)
  {
    match PlannedActions(ns, id)
    case None =>
    case Some(actions) =>
      var run := Run(items, actions, id, clock);
      RunViews(items, actions, id, clock);
      WriteKeepsOtherViews(run, NotificationsKey, NotificationList(SetStatus(ns, id, Implemented)));
  }

  /** Implementation touches nothing outside the campaign, log and
      notification keys, and the campaign key only for `create_campaign`
      actions. */
  lemma ImplementationFrame(items: Items, ns: seq<Notification>, id: string, clock: nat -> Moment)
    requires Implementable(ns, id)
    ensures PlannedActions(ns, id).Some? ==>
              var actions := PlannedActions(ns, id).value;
              var r := AfterImplementation(items, ns, id, clock);
              && AllMaterializable(actions)
              && (CreateCount(actions) == 0 ==> SameEntry(r, items, CampaignsKey))
              && (actions != [] ==> LogsKey in r && r[LogsKey].Json?)
              && r - {CampaignsKey, LogsKey, NotificationsKey} == items - {CampaignsKey, LogsKey, NotificationsKey}
  {
    match PlannedActions(ns, id)
    case None =>
    case Some(actions) =>
      var run := Run(items, actions, id, clock);
      var b := NotificationList(SetStatus(ns, id, Implemented));
      RunFrame(items, actions, id, clock);
      WriteInside(run, NotificationsKey, b, {CampaignsKey, LogsKey, NotificationsKey});
      FrameWiden(run, items, {CampaignsKey, LogsKey}, {CampaignsKey, LogsKey, NotificationsKey});
  }

  // ---- The two operations.

  /** `implementApprovedActions(notificationId)`. */
  method ImplementApprovedActions(s: Store, notificationId: string, clock: nat -> Moment)
    requires Implementable(NotificationsIn(s.items), notificationId)
    modifies s
    ensures s.items == AfterImplementation(old(s.items), old(NotificationsIn(s.items)), notificationId, clock)
  {
    var notifications := NotificationsIn(s.items);
    var found := Find(notifications, notificationId);
    if found.None? || found.value.proposedActions.None? {
      return;
    }
    var actions := found.value.proposedActions.value;
    ghost var items0 := s.items;
    var i := 0;
    while i < |actions|
      invariant 0 <= i <= |actions|
      invariant AllMaterializable(actions[..i])
      invariant s.items == Run(items0, actions[..i], notificationId, clock)
    {
      var action := actions[i];
      assert actions[..i + 1][..i] == actions[..i];
      assert actions[..i + 1][i] == action;
      ghost var before := s.items;
      if action.kind == CreateCampaign {
        var campaigns := CampaignsIn(s.items);
        campaigns := campaigns + [NewCampaign(action, clock(i))];
        SaveCampaigns(s, campaigns);
      }
      assert s.items == WithCampaign(before, action, clock(i));
      var logs := LogsIn(s.items, []);
      logs := logs + [NewLog(action, notificationId, clock(i))];
      s.Set(LogsKey, LogList(logs));
      i := i + 1;
    }
    assert actions[..|actions|] == actions;
    var implemented := SetStatus(notifications, notificationId, Implemented);
    SaveProactiveNotifications(s, implemented);
  }

  /** The feedback record stored for an input at clock reading `now`. */
  function Recorded(input: FeedbackInput, now: Moment): (f: AgentFeedback)
  {
    AgentFeedback(input.notificationId, input.actionId, input.decision, input.feedback, now.isoTimestamp)
  }

  /** The status the notification ends with after a decision: an approval of a
      notification that has proposed actions ends implemented. */
  function DecidedStatus(ns: seq<Notification>, input: FeedbackInput): (st: NotificationStatus)
  {
    if input.decision == "approve" && PlannedActions(ns, input.notificationId).Some? then Implemented
    else StatusFor(input.decision)
  }

  /** Which statuses a decision can leave: only an approval can implement,
      and an approval of a notification without actions stays approved. */
  lemma DecidedStatusCases(ns: seq<Notification>, input: FeedbackInput)
    ensures DecidedStatus(ns, input) == Implemented <==>
              input.decision == "approve" && PlannedActions(ns, input.notificationId).Some?
    ensures input.decision == "approve" && PlannedActions(ns, input.notificationId).None? ==>
              DecidedStatus(ns, input) == Approved
    ensures input.decision == "reject" ==> DecidedStatus(ns, input) == Rejected
    ensures input.decision != "approve" && input.decision != "reject" ==> DecidedStatus(ns, input) == Pending
  {
  }

  /** The store after the status write and the feedback write of
      `submitAgentFeedback`, before any implementation; `ns` is the
      notification list it reads. */
  function Recording(items: Items, ns: seq<Notification>, input: FeedbackInput, now: Moment): Items
  {
    var notified := Stored(items, NotificationsKey, NotificationList(SetStatus(ns, input.notificationId, StatusFor(input.decision))));
    Stored(notified, FeedbacksKey, FeedbackList(FeedbacksIn(notified) + [Recorded(input, now)]))
  }

  /** Recording writes the list with the decided status, appends the feedback
      record, and touches nothing else. */
  lemma RecordingEffect(items: Items, ns: seq<Notification>, input: FeedbackInput, now: Moment)
    ensures var r := Recording(items, ns, input, now);
            && NotificationsIn(r) == SetStatus(ns, input.notificationId, StatusFor(input.decision))
            && FeedbacksIn(r) == FeedbacksIn(items) + [Recorded(input, now)]
            && r - {NotificationsKey, FeedbacksKey} == items - {NotificationsKey, FeedbacksKey}
  {
    var b := NotificationList(SetStatus(ns, input.notificationId, StatusFor(input.decision)));
    var notified := Stored(items, NotificationsKey, b);
    var f := FeedbackList(FeedbacksIn(notified) + [Recorded(input, now)]);
    WriteKeepsOtherViews(items, NotificationsKey, b);
    WriteKeepsOtherViews(notified, FeedbacksKey, f);
    WriteInside(items, NotificationsKey, b, {NotificationsKey, FeedbacksKey});
    WriteInside(notified, FeedbacksKey, f, {NotificationsKey, FeedbacksKey});
  }

  /** The store after `submitAgentFeedback(input)`, where `ns` is the
      notification list it reads first. An approval implements the notification
      on the list just written, whose planned actions are those of `ns`. */
  function AfterFeedback(items: Items, ns: seq<Notification>, input: FeedbackInput, now: Moment, clock: nat -> Moment): Items
    requires input.decision == "approve" ==> Implementable(ns, input.notificationId)
  {
    var recorded := Recording(items, ns, input, now);
    if input.decision == "approve" then
      PlannedActionsAfterSetStatus(ns, input.notificationId, Approved);
      AfterImplementation(recorded, SetStatus(ns, input.notificationId, Approved), input.notificationId, clock)
    else recorded
  }

  /** A decision appends its feedback record and leaves the notification with
      its decided status; an approval of a notification with actions also
      appends their campaigns and logs; nothing outside those keys changes. */
  lemma FeedbackEffect(items: Items, ns: seq<Notification>, input: FeedbackInput, now: Moment, clock: nat -> Moment)
    requires input.decision == "approve" ==> Implementable(ns, input.notificationId)
    ensures var r := AfterFeedback(items, ns, input, now, clock);
            && FeedbacksIn(r) == FeedbacksIn(items) + [Recorded(input, now)]
            && NotificationsIn(r) == SetStatus(ns, input.notificationId, DecidedStatus(ns, input))
    ensures input.decision == "approve" && PlannedActions(ns, input.notificationId).Some? ==>
              var actions := PlannedActions(ns, input.notificationId).value;
              var r := AfterFeedback(items, ns, input, now, clock);
              && AllMaterializable(actions)
              && CampaignsIn(r) == CampaignsIn(items) + CreatedCampaigns(actions, clock)
              && LogsIn(r, []) == LogsIn(items, []) + ImplementationLogs(actions, input.notificationId, clock)
              && r - {NotificationsKey, FeedbacksKey, CampaignsKey, LogsKey}
                 == items - {NotificationsKey, FeedbacksKey, CampaignsKey, LogsKey}
    ensures !(input.decision == "approve" && PlannedActions(ns, input.notificationId).Some?) ==>
              AfterFeedback(items, ns, input, now, clock) - {NotificationsKey, FeedbacksKey}
              == items - {NotificationsKey, FeedbacksKey}
  {
    var id := input.notificationId;
    var recorded := Recording(items, ns, input, now);
    RecordingEffect(items, ns, input, now);
    if input.decision == "approve" {
      var approved := SetStatus(ns, id, Approved);
      PlannedActionsAfterSetStatus(ns, id, Approved);
      ImplementationViews(recorded, approved, id, clock);
      ImplementationFrame(recorded, approved, id, clock);
      SetStatusOverrides(ns, id, Approved, Implemented);
      if PlannedActions(ns, id).Some? {
        var all := {NotificationsKey, FeedbacksKey, CampaignsKey, LogsKey};
        var r := AfterImplementation(recorded, approved, id, clock);
        AgreeAt(recorded, items, {NotificationsKey, FeedbacksKey}, CampaignsKey);
        AgreeAt(recorded, items, {NotificationsKey, FeedbacksKey}, LogsKey);
        AgreeAt(r, recorded, {CampaignsKey, LogsKey, NotificationsKey}, FeedbacksKey);
        FrameWiden(r, recorded, {CampaignsKey, LogsKey, NotificationsKey}, all);
        FrameWiden(recorded, items, {NotificationsKey, FeedbacksKey}, all);
      }
    }
  }

  /** The decision does not look at the current status: rejecting a
      notification that was already implemented leaves it rejected. */
  lemma RejectAfterImplemented(items: Items, ns: seq<Notification>, input: FeedbackInput, now: Moment, clock: nat -> Moment)
    requires input.decision == "reject"
    requires Find(ns, input.notificationId).Some? && Find(ns, input.notificationId).value.status == Implemented
    ensures Find(NotificationsIn(AfterFeedback(items, ns, input, now, clock)), input.notificationId)
            == Some(Find(ns, input.notificationId).value.(status := Rejected))
  {
    FeedbackEffect(items, ns, input, now, clock);
    FindAfterSetStatus(ns, input.notificationId, Rejected);
  }

  /** Approving a notification whose only action is a `create_campaign` one
      appends exactly that action's campaign and exactly one log entry. */
  lemma ApproveSingleCampaign(items: Items, ns: seq<Notification>, input: FeedbackInput, now: Moment, clock: nat -> Moment)
    requires input.decision == "approve"
    requires PlannedActions(ns, input.notificationId).Some?
    requires var actions := PlannedActions(ns, input.notificationId).value;
             |actions| == 1 && actions[0].kind == CreateCampaign && Materializable(actions[0])
    ensures var a := PlannedActions(ns, input.notificationId).value[0];
            var r := AfterFeedback(items, ns, input, now, clock);
            && CampaignsIn(r) == CampaignsIn(items) + [NewCampaign(a, clock(0))]
            && LogsIn(r, []) == LogsIn(items, []) + [NewLog(a, input.notificationId, clock(0))]
  {
    var actions := PlannedActions(ns, input.notificationId).value;
    FeedbackEffect(items, ns, input, now, clock);
    assert actions[..0] == [];
  }

  /** `submitAgentFeedback(feedback)`: returns the stored record. */
  method SubmitAgentFeedback(s: Store, input: FeedbackInput, now: Moment, clock: nat -> Moment)
    returns (record: AgentFeedback)
    requires input.decision == "approve" ==> Implementable(NotificationsIn(s.items), input.notificationId)
    modifies s
    ensures record == Recorded(input, now)
    ensures s.items == AfterFeedback(old(s.items), old(NotificationsIn(s.items)), input, now, clock)
  {
    var id := input.notificationId;
    var notifications := NotificationsIn(s.items);
    var updated := SetStatus(notifications, id, StatusFor(input.decision));
    SaveProactiveNotifications(s, updated);

    var feedbacks := FeedbacksIn(s.items);
    record := Recorded(input, now);
    feedbacks := feedbacks + [record];
    s.Set(FeedbacksKey, FeedbackList(feedbacks));

    if input.decision == "approve" {
      PlannedActionsAfterSetStatus(notifications, id, Approved);
      ImplementApprovedActions(s, id, clock);
    }
  }
}
