# MARGENT mock service layer and guided tour, in Dafny

MARGENT is a marketing dashboard for health-care practices. It has two
pieces of logic, and this project models both.

**The mock service layer** lives in `src/services/mockApi.ts`. It keeps every
collection as one JSON blob in the browser's `localStorage`. Clients,
campaigns, the per-client funnel map, calendar events, proactive
notifications, agent feedback, agent logs, kanban boards, the dashboard
document and the agent memory document each have their own key.

- Each read falls back to a hard-coded default.
- The campaign, calendar and kanban reads can filter by client.
- Deciding on a notification records the decision. On approval, it then
  implements the notification's proposed actions:
  - one campaign for each `create_campaign` action;
  - one log entry for every action;
  - finally the notification's status becomes `implemented`.
- The dashboard totals the campaigns' leads and counts the active clients.
- The agent memory lists the active clients' names.
- A canned chat agent picks a reply by keyword.

**The guided tour** lives in `src/context/TutorialContext.tsx`. It is a
provider holding three fields:

- whether the tour is running;
- the index of the current step, among eleven fixed steps;
- the tab on show.

Advancing to a step whose id names a section switches to that section's tab.

Modules, one file each:

- `Base`: option; order-preserving `filter` and `map`.
- `Text`: ASCII lower-casing, `includes`, `join`, decimal rendering.
- `Types`: the stored records.
- `Seeds`: the hard-coded defaults.
- `Storage`: the key/value store as a class with a `map` field.
- `Repository`: typed reads and whole-collection writes, per-client filters,
  funnel data.
- `Workflow`: the decision and implementation workflow.
- `Dashboard`: the dashboard and agent-memory aggregates.
- `Chat`: the chat agent.
- `Tutorial`: the tour, with the provider as a class.

The store object is a class, `Storage.KeyValueStore`, whose one method `Set`
replaces an entry in place. The operations that change state (the `Save…`
writes, `SubmitAgentFeedback` and `ImplementApprovedActions`) are module
methods that take the store and modify it:

- `ImplementApprovedActions` keeps the action loop of the source.
- Each method's `ensures` equates the new store with a pure transformer of the
  old one: `AfterImplementation` and `AfterFeedback`. What the workflow promises
  is proved about those transformers: the appended campaigns and logs, the
  status changes, and which keys are left untouched.

The code does less checking than one might expect; the model follows the code:

- Decisions and implementation do not check the notification's current status.
  A notification can be decided any number of times, including after it was
  rejected or implemented. A repeated approval implements it again.
- A decision on an unknown id raises no error. It still appends a feedback
  record and changes no notification.
- A notification without `proposedActions` is approved and never becomes
  implemented. There is no per-action failure handling: an action that cannot
  be materialised makes the source throw (see `Materializable`).
- Implementation reads the log list with an empty fallback, not the seeded log
  list. On a store with no logs yet, the first implemented action starts a
  list that does not contain the four seeded entries.
- `saveFunnelData` reads the funnel map with an empty fallback. On a fresh
  store, the first save makes every other client's seeded funnel read as the
  empty record (`FirstFunnelSaveForgetsSeeds`).
- `endTutorial` keeps the tab on show. `nextStep` does not look at whether the
  tour is running.
- The average conversion and engagement divide by the number of campaigns
  without guarding an empty list.

## Model

| member | source | states |
|---|---|---|
| Base.Filter | src/services/mockApi.ts:163 | the order-preserving `Array.prototype.filter` (also at lines 333, 411, 436, 493, 590 and 614): exactly the elements satisfying the test, in order, each with its multiplicity |
| Base.Project | src/services/mockApi.ts:614 | the order-preserving `Array.prototype.map`: same length, the i-th result is the function of the i-th element |
| Storage.Stored | src/services/mockApi.ts:13-19 | the store after `setToLocalStorage`: the key holds the written document; the lemmas below state what reads of it and of other keys give |
| Storage.KeyValueStore.Get | src/services/mockApi.ts:2-10 | `getFromLocalStorage` on the store object: the reading `Lookup` describes |
| Storage.Lookup | src/services/mockApi.ts:2-10 | a read yields the stored document for a present, parsable, non-empty item and the caller's default for a missing key, an empty item or an item that fails to parse |
| Storage.ReadAfterWrite | src/services/mockApi.ts:2-19 | a write followed by a read of the same key yields the written value, whatever the default |
| Storage.WriteKeepsOtherKeys | src/services/mockApi.ts:13-19 | a write leaves the reading of every other key unchanged |
| Storage.KeyValueStore.Set | src/services/mockApi.ts:13-19 | the entry under the key is replaced by the value; every other key keeps its presence and its entry |
| Repository.WriteKeepsOtherViews | src/services/mockApi.ts:13-19 | a write under one key leaves the typed view of every other collection and document as it was |
| Seeds.Clients | src/services/mockApi.ts:27-94 | the three default clients |
| Seeds.Campaigns | src/services/mockApi.ts:107-160 | the four default campaigns |
| Seeds.Funnels | src/services/mockApi.ts:175-216 | the default funnel map, one record per client |
| Seeds.MothersDayActions | src/services/mockApi.ts:248-293 | the proposed actions of the seeded Mother's Day notification |
| Seeds.Notifications | src/services/mockApi.ts:233-315 | the default notifications |
| Seeds.CalendarEvents | src/services/mockApi.ts:456-490 | the default calendar events |
| Seeds.KanbanBoards | src/services/mockApi.ts:525-587 | the default kanban boards |
| Seeds.Logs | src/services/mockApi.ts:701-745 | the four default log entries |
| Repository.ClientsIn | src/services/mockApi.ts:95 | the client list read with the seeded clients as fallback |
| Repository.CampaignsIn | src/services/mockApi.ts:162 | the campaign list read with the seeded campaigns as fallback |
| Repository.FunnelsIn | src/services/mockApi.ts:218-224 | the funnel map read with the caller's fallback: the seeded map for reads, the empty map for saves |
| Repository.EventsIn | src/services/mockApi.ts:492 | the event list read with the seeded events as fallback |
| Repository.NotificationsIn | src/services/mockApi.ts:316 | the notification list read with the seeded notifications as fallback |
| Repository.FeedbacksIn | src/services/mockApi.ts:348 | the feedback list read with the empty list as fallback |
| Repository.LogsIn | src/services/mockApi.ts:394 | the log list read with the caller's fallback: the seeded logs for reads, the empty list for implementation |
| Repository.BoardsIn | src/services/mockApi.ts:589 | the board list read with the seeded boards as fallback |
| Repository.StoredDashboard | src/services/mockApi.ts:444 | the saved dashboard document, if a usable one is stored |
| Repository.StoredMemory | src/services/mockApi.ts:651 | the saved memory document, if a usable one is stored |
| Repository.ForClient | src/services/mockApi.ts:163 | a missing or empty client id selects the whole list; a non-empty one selects exactly the items owned by that client, each with its stored multiplicity, as a subsequence in stored order |
| Repository.ForClientAppend | src/services/mockApi.ts:163 | filtering an appended list is appending the filtered parts, so each client's view keeps the stored order |
| Repository.ForClientIdempotent | src/services/mockApi.ts:163 | filtering twice by the same client is filtering once |
| Repository.GetClients | src/services/mockApi.ts:25-96 | with no stored client list, the seeded clients are returned |
| Repository.GetCampaigns | src/services/mockApi.ts:162-163 | without a client id, all stored campaigns; with one, exactly the stored campaigns of that client |
| Repository.GetCalendarEvents | src/services/mockApi.ts:492-493 | without a client id, all stored events; with one, exactly that client's events |
| Repository.GetKanbanBoards | src/services/mockApi.ts:589-590 | without a client id, all stored boards; with one, exactly that client's boards |
| Repository.GetProactiveNotifications | src/services/mockApi.ts:316 | with no stored list, the seeded notifications are returned |
| Repository.GetAgentLogs | src/services/mockApi.ts:746 | with no stored list, the four seeded log entries are returned |
| Repository.FunnelFor | src/services/mockApi.ts:219 | the map's record for the client, or the empty record carrying that client id when the client has none |
| Repository.GetFunnelData | src/services/mockApi.ts:218-219 | the client's record in the stored funnel map (the seeded map when none is stored), or the empty record |
| Repository.SaveFunnelData | src/services/mockApi.ts:222-228 | the funnel map is rewritten with the client's record replaced; that client then reads back the saved record and every other client reads what the map read with an empty fallback held |
| Repository.FirstFunnelSaveForgetsSeeds | src/services/mockApi.ts:218-226 | on a store without funnel data another client reads its seeded funnel before the first save and the empty record after it |
| Repository.SaveClients | src/services/mockApi.ts:98-102 | the client list is replaced and reads back as saved |
| Repository.SaveCampaigns | src/services/mockApi.ts:166-170 | the campaign list is replaced and reads back as saved |
| Repository.SaveCalendarEvents | src/services/mockApi.ts:496-500 | the event list is replaced and reads back as saved |
| Repository.SaveKanbanBoards | src/services/mockApi.ts:593-597 | the board list is replaced and reads back as saved |
| Repository.SaveProactiveNotifications | src/services/mockApi.ts:319-323 | the notification list is replaced and reads back as saved |
| Repository.SaveAgentLogs | src/services/mockApi.ts:749-753 | the log list is replaced and reads back as saved |
| Repository.SaveDashboardData | src/services/mockApi.ts:447-451 | the dashboard document is replaced and is the saved one from then on |
| Repository.SaveAgentMemory | src/services/mockApi.ts:654-658 | the memory document is replaced and is the saved one from then on |
| Workflow.StatusFor | src/services/mockApi.ts:337-338 | "approve" gives approved and only it does, "reject" gives rejected and only it does, every other decision gives pending, and no decision gives implemented |
| Workflow.SetStatus | src/services/mockApi.ts:333-342 | the list keeps its length, and every notification keeps its id and its proposed actions |
| Workflow.SetStatusFrame | src/services/mockApi.ts:333-342 | exactly the notifications carrying the id take the new status, all their other fields kept; every other notification is unchanged |
| Workflow.SetStatusOverrides | src/services/mockApi.ts:411-417 | a later status update of the same id overrides an earlier one |
| Workflow.SetStatusUnknownId | src/services/mockApi.ts:333-342 | an update for an id no notification carries leaves the list unchanged |
| Workflow.PlannedActions | src/services/mockApi.ts:366-369 | the actions implementation carries out: none for an unknown id or a notification without actions; what it finds is stated by PlannedActionsAfterSetStatus and DecidedStatusCases |
| Workflow.Find | src/services/mockApi.ts:367 | nothing is found exactly when no notification carries the id; what is found carries the id |
| Workflow.FindFirst | src/services/mockApi.ts:367 | the notification found is the first in the list carrying the id |
| Workflow.FindAfterSetStatus | src/services/mockApi.ts:366-369 | looking up an id after its status update finds the same notification with the new status |
| Workflow.PlannedActionsAfterSetStatus | src/services/mockApi.ts:357-369 | the actions implementation finds are the same before and after the approval's status write |
| Workflow.NewCampaignFields | src/services/mockApi.ts:376-388 | a created campaign takes the action's title, client and budget, has status "Ativa" and zero leads, joins the channels with " + " and is marked as created by the agent |
| Workflow.ImplementationLogsExact | src/services/mockApi.ts:372-408 | one log per action, the i-th for the i-th action, whatever its type |
| Workflow.ImplementationLogFields | src/services/mockApi.ts:394-407 | each log has status success, the action's type, its target client and the title "Implementação: " followed by the action title |
| Workflow.CreatedCampaignsCount | src/services/mockApi.ts:372-391 | as many campaigns are created as there are create_campaign actions, never more than the actions |
| Workflow.CreatedCampaignsFromActions | src/services/mockApi.ts:373-391 | every created campaign is built from some create_campaign action, and every such action builds one |
| Workflow.NoCreateNoCampaign | src/services/mockApi.ts:373-391 | actions of no create_campaign kind create no campaign |
| Workflow.NewCampaign | src/services/mockApi.ts:376-388 | the campaign a create_campaign action creates; its fields are stated by NewCampaignFields |
| Workflow.ActionClient | src/services/mockApi.ts:403 | `action.parameters?.clientId`: the client of the parameter bag, none without one |
| Workflow.NewLog | src/services/mockApi.ts:395-405 | the log entry one action appends; its fields are stated by ImplementationLogFields |
| Workflow.CreatedCampaigns | src/services/mockApi.ts:372-391 | the campaigns the loop creates, one per create_campaign action, in action order |
| Workflow.ImplementationLogs | src/services/mockApi.ts:372-408 | the log entries the loop appends, one per action, in action order |
| Workflow.WithCampaign | src/services/mockApi.ts:373-391 | the store after the campaign half of one pass: the campaign appended for a create_campaign action, unchanged otherwise |
| Workflow.Step | src/services/mockApi.ts:373-407 | the store after one loop pass; what it changes is stated by StepViews and StepFrame |
| Workflow.Run | src/services/mockApi.ts:372-408 | the store after the whole loop; what it changes is stated by RunViews and RunFrame |
| Workflow.StepViews | src/services/mockApi.ts:373-407 | one loop pass appends the action's campaign only for a create_campaign action and always appends one log entry |
| Workflow.StepCampaigns | src/services/mockApi.ts:374-391 | one loop pass appends the action's campaign exactly for a create_campaign action |
| Workflow.StepLogs | src/services/mockApi.ts:394-407 | one loop pass appends exactly one log entry, the action's, whatever its type |
| Workflow.StepFrame | src/services/mockApi.ts:373-407 | one loop pass writes the log key, writes the campaign key only for a create_campaign action, and no other key |
| Workflow.RunCampaigns | src/services/mockApi.ts:372-391 | the loop appends the created campaigns, in action order |
| Workflow.RunLogs | src/services/mockApi.ts:372-408 | the loop appends one log entry per action, in action order |
| Workflow.RunViews | src/services/mockApi.ts:372-408 | the loop appends the created campaigns and the implementation logs, in action order |
| Workflow.RunFrame | src/services/mockApi.ts:372-408 | the loop touches only the campaign and log keys, and touches the campaign key only when a create_campaign action is present |
| Workflow.AfterImplementation | src/services/mockApi.ts:365-418 | the store after `implementApprovedActions`; what it changes is stated by ImplementationViews and ImplementationFrame |
| Workflow.ImplementationViews | src/services/mockApi.ts:365-418 | nothing changes when the id is unknown or has no actions; otherwise campaigns and logs are appended as the loop builds them and the notification list is the one read with that id marked implemented |
| Workflow.ImplementationFrame | src/services/mockApi.ts:365-418 | implementation changes nothing outside the campaign, log and notification keys, and changes the campaign key only for create_campaign actions |
| Workflow.ImplementApprovedActions | src/services/mockApi.ts:365-418 | the loop leaves the store exactly as the implementation transformer describes for the notification list it read |
| Workflow.DecidedStatusCases | src/services/mockApi.ts:333-369 | only an approval of a notification with actions ends implemented; an approval without actions ends approved, a rejection rejected, anything else pending |
| Workflow.Recording | src/services/mockApi.ts:333-354 | the store after the status write and the feedback write of a decision; what it changes is stated by RecordingEffect |
| Workflow.RecordingEffect | src/services/mockApi.ts:333-354 | the decision writes the list with the decided status, appends exactly one feedback record, and touches nothing else |
| Workflow.AfterFeedback | src/services/mockApi.ts:326-362 | the store after `submitAgentFeedback`; what it changes is stated by FeedbackEffect |
| Workflow.FeedbackEffect | src/services/mockApi.ts:326-362 | every decision, for any id, appends its feedback record and leaves the notification with its decided status; an approval with actions also appends their campaigns and logs and touches nothing else; any other decision touches only notifications and feedback |
| Workflow.RejectAfterImplemented | src/services/mockApi.ts:333-342 | rejecting an implemented notification leaves it rejected, since the current status is not checked |
| Workflow.ApproveSingleCampaign | src/services/mockApi.ts:356-407 | approving a notification whose only action creates a campaign appends exactly that campaign and exactly one log entry |
| Workflow.Recorded | src/services/mockApi.ts:349-352 | the stored feedback record: the input's fields with the timestamp of the clock reading |
| Workflow.SubmitAgentFeedback | src/services/mockApi.ts:326-362 | returns the input with its timestamp, and leaves the store as the feedback transformer describes |
| Dashboard.SumLeads | src/services/mockApi.ts:427 | the lead total of a campaign list; its properties are stated by the lemmas below |
| Dashboard.SumLeadsConcat | src/services/mockApi.ts:427 | the lead total of a concatenation is the sum of the totals |
| Dashboard.SumLeadsOfNoLeads | src/services/mockApi.ts:427 | campaigns without leads total zero |
| Dashboard.CreatedCampaignsHaveNoLeads | src/services/mockApi.ts:384 | every campaign implementation creates starts with zero leads |
| Dashboard.ImplementationKeepsLeadTotal | src/services/mockApi.ts:427 | implementing a notification never changes the lead total |
| Dashboard.ActiveClients | src/services/mockApi.ts:436 | exactly the active clients, each with its multiplicity in the list, as a subsequence in stored order |
| Dashboard.ActiveClientCount | src/services/mockApi.ts:436 | the active-client figure is the count of active clients, counted one client at a time, and never exceeds the number of clients |
| Dashboard.CountActive | src/services/mockApi.ts:436 | the independent count of active clients, one client at a time from the front |
| Dashboard.ActiveCountIsCount | src/services/mockApi.ts:436 | the length of the filtered list equals the independent count, for every client list |
| Dashboard.ActiveCountAll | src/services/mockApi.ts:436 | the figure equals the number of clients exactly when every client is active |
| Dashboard.ActiveClientNames | src/services/mockApi.ts:614 | there are as many names as active clients, and the i-th name is the name of the i-th active client |
| Dashboard.ActiveNameMembership | src/services/mockApi.ts:614 | a name is listed exactly when some active client carries it |
| Dashboard.ComputedDashboard | src/services/mockApi.ts:431-443 | four metrics and three alerts |
| Dashboard.ComputedDashboardFigures | src/services/mockApi.ts:427-439 | the first metric is the lead total, the fourth is the active-client count and is at most the number of clients, and the first alert quotes the lead total |
| Dashboard.DashboardOf | src/services/mockApi.ts:421-445 | a saved dashboard is returned as saved; otherwise the computed one over the stored clients and campaigns |
| Dashboard.GetDashboardData | src/services/mockApi.ts:421-445 | on the current store, the saved dashboard when a usable one is stored, otherwise the one computed over the stored clients and campaigns |
| Dashboard.SavedDashboardIsFrozen | src/services/mockApi.ts:444 | once a dashboard is saved, later writes to other keys no longer show on it |
| Dashboard.ApprovalKeepsDashboardLeads | src/services/mockApi.ts:427 | without a saved dashboard, implementation leaves the lead metric as it was |
| Dashboard.SeedLeadTotal | src/services/mockApi.ts:427 | the seeded campaigns total 189 leads |
| Dashboard.SeedActiveCount | src/services/mockApi.ts:436 | two of the seeded clients are active |
| Dashboard.SeedDashboard | src/services/mockApi.ts:427-436 | on a fresh store the dashboard reports 189 leads and 2 active clients |
| Seeds.Memory | src/services/mockApi.ts:602-650 | the default memory lists the given active-client names |
| Dashboard.MemoryOf | src/services/mockApi.ts:599-652 | a saved memory is returned as saved; otherwise the default one listing the names of the stored active clients |
| Dashboard.GetAgentMemory | src/services/mockApi.ts:599-652 | on the current store, the saved memory when a usable one is stored, otherwise a default listing the names of the stored active clients |
| Dashboard.MemoryFollowsSavedClients | src/services/mockApi.ts:601-614 | until a memory is saved, its active-client list follows every saved client list |
| Text.LowerChar | src/services/mockApi.ts:505 | an ASCII capital becomes the letter 32 code points later, its lower-case form; every other character is kept |
| Text.ToLower | src/services/mockApi.ts:505 | same length, each ASCII capital lower-cased and every other character kept |
| Text.Contains | src/services/mockApi.ts:507 | the substring test holds exactly when the pattern occurs at some position |
| Text.Join | src/services/mockApi.ts:385 | joining nothing is empty and joining one part is that part |
| Text.JoinLength | src/services/mockApi.ts:385 | the length of a join is the total length of the parts plus one separator between each two |
| Text.JoinParts | src/services/mockApi.ts:385 | the join holds each part at its offset (the lengths of the parts before it and one separator each), followed by the separator unless it is the last part |
| Text.IntToString | src/services/mockApi.ts:439 | a non-empty rendering starting with a minus sign exactly for negative numbers |
| Text.NatToString | src/services/mockApi.ts:439 | a non-empty run of decimal digits, without a leading zero unless it is "0" |
| Text.NatToStringValue | src/services/mockApi.ts:439 | the digits rendered for a natural number denote that number |
| Text.IntToStringValue | src/services/mockApi.ts:439 | a non-negative number renders as digits denoting it; a negative one as a minus sign followed by digits denoting its magnitude |
| Chat.Classify | src/services/mockApi.ts:505-517 | the keyword tests in their order; what they pick is stated by ClassifyByMentions |
| Chat.Reply | src/services/mockApi.ts:507-519 | the canned reply of each topic; they differ by RepliesDistinct |
| Chat.GetAgentResponse | src/services/mockApi.ts:502-520 | the reply is one of the four canned replies, and each topic the keyword tests pick gets its own reply |
| Chat.RepliesDistinct | src/services/mockApi.ts:507-519 | different topics get different replies |
| Chat.ClassifyByMentions | src/services/mockApi.ts:505-517 | the holiday reply exactly when the lower-cased input mentions the holiday; the client reply exactly when it mentions "cliente" and not the holiday; the funnel reply exactly when it mentions "funil" or "leads" and neither of those; the "clientes" test never decides |
| Chat.ResponseIgnoresCase | src/services/mockApi.ts:505 | an input and its lower-cased form get the same reply |
| Chat.EmptyInputGetsGeneralReply | src/services/mockApi.ts:519 | the empty input gets the general reply |
| Chat.MothersDayWins | src/services/mockApi.ts:507-509 | an input naming the holiday, with or without the tilde, gets the holiday reply whatever else it says |
| Chat.ClientsBeforeLeads | src/services/mockApi.ts:511-517 | an input about clients that does not name the holiday gets the client reply, even if it mentions leads or the funnel |
| Tutorial.Steps | src/context/TutorialContext.tsx:34-116 | the eleven tour steps in order, with their ids, targets, titles and positions, and whether each has an action callback |
| Tutorial.LastStep | src/context/TutorialContext.tsx:134 | the index of the last step, `steps.length - 1` |
| Tutorial.TabFor | src/context/TutorialContext.tsx:143-151 | the campaigns tab exactly when the id names it; otherwise the funnel, then the calendar, then the chat tab, each only when no earlier section is named; none exactly when the id names no section; a tab switched to is named in the id |
| Tutorial.StepTab | src/context/TutorialContext.tsx:34-151 | the welcome, dashboard and conclusion steps switch no tab; the campaign, funnel, calendar and chat steps switch to their own section |
| Tutorial.Started | src/context/TutorialContext.tsx:127-131 | `startTutorial()`: running, at step 0, on the dashboard tab |
| Tutorial.Ended | src/context/TutorialContext.tsx:165-168 | `endTutorial()`: not running, at step 0, the tab kept |
| Tutorial.Advanced | src/context/TutorialContext.tsx:133-157 | `nextStep()`: the next step and its tab, or the end of the tour at the last step |
| Tutorial.Retreated | src/context/TutorialContext.tsx:159-163 | `prevStep()`: one step back, never below the first |
| Tutorial.OperationsKeepRange | src/context/TutorialContext.tsx:123-168 | every operation keeps the step index within the eleven steps; advancing ends the tour exactly at the last step |
| Tutorial.OperationEffects | src/context/TutorialContext.tsx:127-168 | start resets all three fields; end clears the running flag and the step and keeps the tab; going back stops at the first step and keeps the tab and the flag; advancing before the last step moves one step on and keeps the flag; at the last step it ends the tour |
| Tutorial.Walk | src/context/TutorialContext.tsx:133-157 | repeated advancing keeps the step index in range |
| Tutorial.TourAdvance | src/context/TutorialContext.tsx:133-151 | one advance along the tour moves from step k-1 with its tab to step k with its tab |
| Tutorial.TourFromStart | src/context/TutorialContext.tsx:34-157 | after starting, k advances show step k, running, with the tab of the last section reached |
| Tutorial.TourEnds | src/context/TutorialContext.tsx:133-157 | after starting, ten advances reach the conclusion and the eleventh ends the tour with the chat tab on show |
| Tutorial.BackAfterForward | src/context/TutorialContext.tsx:133-163 | going back after going forward returns to the same step but keeps the tab switched to |
| Tutorial.AdvanceWhileInactive | src/context/TutorialContext.tsx:133-157 | advancing while the tour is not running still moves to the next step and does not start the tour |
| Tutorial.TutorialProvider.constructor | src/context/TutorialContext.tsx:123-125 | a fresh provider is not running, at step 0, showing the dashboard tab |
| Tutorial.TutorialProvider.StartTutorial | src/context/TutorialContext.tsx:127-131 | the fields become the started state |
| Tutorial.TutorialProvider.NextStep | src/context/TutorialContext.tsx:133-157 | the fields become the advanced state and the step stays in range |
| Tutorial.TutorialProvider.PrevStep | src/context/TutorialContext.tsx:159-163 | the fields become the state one step back and the step stays in range |
| Tutorial.TutorialProvider.EndTutorial | src/context/TutorialContext.tsx:165-168 | the fields become the ended state |
| Tutorial.TutorialProvider.SetActiveTab | src/context/TutorialContext.tsx:125 | only the tab changes |

## Left out

- Latency (`sleep`), `async`/`await` and React state scheduling: every call is an atomic sequential step.
- JSON serialisation is treated as the identity. An item that fails to parse is one kind of stored entry (`Garbled`). A stored JSON `null` is not modelled.
- Storage quota and serialisation failures on write: the source only logs them to the console.
- A blob of the wrong shape under a key reads as that key's default here. The source would return it and fail later.
- `Date.now()` and `new Date().toISOString()`: they enter as clock parameters. The generated `campaign-…` and `log-…` ids are not claimed to be unique.
- Numbers are unbounded integers here, while JavaScript numbers are doubles. The lead total (the `reduce` at src/services/mockApi.ts:427) would round above 2^53, and `${totalLeads}` (src/services/mockApi.ts:439) prints exponent notation such as "1e+21" from 10^21 up. `Text.NatToString` and `Text.IntToString` render plain digits for every size.
- Floating-point fields are not carried: conversion rate, engagement and the cost in dollars. The two average percentages and their `toFixed` rendering enter the dashboard as text parameters. This includes the division by zero on an empty campaign list.
- Record fields that no modelled computation reads are not carried (src/types/index.ts):
  - a client's `logo`, `primaryColor`, `location`, contact data (`contactPerson`, `email`, `phone`), `services`, `targetAudience`, `activeChannels`, `joinDate` and `preferences`;
  - a lead's `phone`, `email` and `interestedService`;
  - a calendar event's `content`;
  - a kanban card's `description`, `members`, `tags`, `dueDate`, `priority` and `estimatedHours`, and a board's `isTemplate`;
  - a notification's `actionProposal`, `justification`, `triggerEvent` and `estimatedImpact`;
  - the action parameters other than `clientId`, `budget`, `channels` and `targetAudience`, such as `duration`, `contentType` and `quantity` (src/services/mockApi.ts:257, 286-287).

  The tutorial steps keep their ids, targets, titles and positions; their long `content` texts are dropped. The proposed actions' descriptions and the log entries' justifications are carried.
- `Text.ToLower` lower-cases ASCII capitals only. JavaScript's full Unicode `toLowerCase` is not modelled, so for example an accented capital is kept as it is.
- `Workflow.ImplementApprovedActions` and `Workflow.SubmitAgentFeedback` (on an approval) require every `create_campaign` action of the notification to carry a parameter bag with a `channels` list. The source dereferences both and would throw a `TypeError` otherwise.
- `getAgentReasoning` and `saveAgentReasoning` (src/services/mockApi.ts:660-697): fixed documents with no logic.
- The tutorial steps' action callbacks are empty in the source; only whether a step has one is kept.
- One clock reading per loop pass stands for both readings of the pass. The source calls `Date.now()` and `new Date()` separately for the campaign (src/services/mockApi.ts:377, 381-382) and for the log entry (396-397), and `saveCampaigns` sleeps 100 ms between them (167). So the model gives a campaign and its log entry the same time and the same numeric id suffix, which the source need not do.
- Client ids that name members of JavaScript's `Object.prototype` (`constructor`, `__proto__`, …). The funnel map is a plain object, so `getFunnelData('constructor')` returns an inherited function, and a save under `__proto__` is lost on serialisation. The model treats the map as a plain dictionary.
- The feedback input carries only its four declared fields. The source spreads the whole caller object into the stored record (`{...feedback, timestamp}`), so extra fields such as `modifications` (src/types/index.ts:231) are stored too.
- The React context plumbing is not modelled (`useTutorial`, the provider's rendering).
- The tooltip positioning in TutorialTooltip.tsx is not part of this model, and neither is the page glue in App.tsx.
