# Client dashboard stores, in Dafny

This project models the in-memory state layer of a client-management dashboard
and proves properties of it. The layer is a set of stores. Each store holds a
few tables: arrays of records keyed by a string `id`. Its actions are
whole-table updates:

- append a record;
- merge a partial update into the records with an id;
- remove the records with an id;
- cascading deletes: a deal takes its activities and proposals, a
  configuration takes its accounts, a removed member leaves no department, and
  a note takes its direct replies;
- an upsert of sales forecasts keyed by period;
- a no-duplicate insert when a member is assigned to a department;
- order-preserving query filters.

The calendar store also mirrors its events to a remote (Google) calendar on a
best-effort basis. The project further models the schema that validates a new
advertising account, and the form handler that runs it before adding the account.

## Layout

Each store is a `class` whose fields are the store's tables (`seq`) and
selections (`Option`). Each action is a `method` with a `modifies this` clause.
The method's `ensures` ties every field to a named module-level function of the
old state (`DealsWithout`, `Upserted`, `Resynced`, …). Those functions carry
their own contracts, and the lemmas beside them prove what the source promises:

- cascades keep referential integrity;
- upsert, archive and assign are idempotent;
- deleting a task or milestone just added under a fresh id restores the
  project, and deleting a note right after replying to it removes the reply;
- an update never touches a record with another id.

Queries are functions that read the store.

| file | module | source |
|---|---|---|
| maybe.dfy | `Maybe` | `undefined`, `??` and `{...a, ...b}` on optional fields |
| tables.dfy | `Tables` | `filter`, `map`-where-id-matches and `find`, with their algebra |
| calendar.dfy | `Calendar` | src/store/calendarStore.ts |
| sales.dfy | `Sales` | src/store/salesStore.ts |
| integration.dfy | `Integration` | src/store/integrationStore.ts |
| team.dfy | `Team` | src/store/teamStore.ts |
| notes.dfy | `Notes` | src/store/noteStore.ts |
| projects.dfy | `Projects` | src/store/projectStore.ts |
| advertising_schema.dfy | `AdvertisingSchema` | `advertisingAccountSchema` in src/types/advertising.ts |
| advertising.dfy | `Advertising` | src/store/advertisingStore.ts and the submit handler of the account modal |
| clients.dfy | `Clients` | src/store/clientStore.ts |
| communication.dfy | `Communication` | src/store/communicationStore.ts |

Anything outside the store's own state is a parameter of the action that uses it:

- fresh ids (`String(Date.now())`);
- clock readings (`new Date()`);
- the random draw of `verifyAccount`;
- every answer of the remote calendar.

A `Partial<T>` update is a patch datatype with one `Option` per field. Dates are
millisecond time values (`int`). Numeric amounts are `real`.

### Behaviour worth noting

- `addEvent` awaits the remote create and appends afterwards
  (src/store/calendarStore.ts:56-81).
- The update sent to the remote calendar takes title, description and location
  from the update or else from the stored event. It takes start, end and
  attendees only when the update carries them (src/store/calendarStore.ts:92-105).
  `Calendar.UpdatePayloadMatchesMerge` pins this down.
- "Remote-linked" is JavaScript truthiness of `googleEventId`. An event whose
  remote id is the empty string counts as local-only: sync keeps it, and update
  and delete send nothing for it.

## Model

| member | source | states |
|---|---|---|
| Tables.Filter | src/store/calendarStore.ts:183 | an element is in the result iff it is in the input and passes the test; the result is no longer than the input |
| Tables.MapIf | src/store/teamStore.ts:37-39 | same length; each position holds the rewritten element exactly when the test selects it, else the original |
| Tables.Find | src/store/calendarStore.ts:87 | none iff no element passes; a result is an element of the input that passes, at a position before which no element passes (the first match) |
| Tables.FilterConcat | src/store/calendarStore.ts:181-185 | filtering a concatenation is the concatenation of the filtered parts (order is preserved) |
| Tables.FilterSnoc | src/store/salesStore.ts:52-53 | filtering after an append is the old filtered list, plus the new element if it passes |
| Tables.FilterKeepsAll | src/store/calendarStore.ts:131 | a filter that passes every element returns the list itself |
| Tables.FilterKeepsNone | src/store/calendarStore.ts:183 | a filter that passes no element returns the empty list |
| Tables.FilterAgree | src/store/communicationStore.ts:42-45 | tests that agree on the list's elements filter it identically |
| Tables.FilterFilter | src/store/communicationStore.ts:42-45 | filtering twice is filtering once by the conjunction |
| Tables.FilterIdempotent | src/store/noteStore.ts:56 | filtering twice by one test is filtering once |
| Tables.MapIfNoHit | src/store/calendarStore.ts:112-114 | a rewrite that selects nothing returns the list itself |
| Tables.MapIfIdempotent | src/store/teamStore.ts:69-73 | rewriting twice is rewriting once when a still-selected rewritten element is a fixed point |
| Tables.FindSkips | src/store/salesStore.ts:134-135 | `find` passes over a prefix in which nothing matches |
| Tables.FindHead | src/store/salesStore.ts:134-135 | `find` returns the first element when it matches |
| Calendar.Merge | src/store/calendarStore.ts:113 | definition: `{ ...e, ...updates }`, every field the update carries replaces the event's, every other field is kept |
| Calendar.Truthy | src/store/calendarStore.ts:90 | definition: JavaScript truthiness of an optional string, present and not empty |
| Calendar.RemoteLinked | src/store/calendarStore.ts:122 | definition: the event carries a truthy `googleEventId`, the test that gates the remote update and delete |
| Calendar.LocalOnly | src/store/calendarStore.ts:183 | definition: `!e.googleEventId`, the test sync uses to keep an event |
| Calendar.ToPayloadAttendees | src/store/calendarStore.ts:70 | attendees are sent iff present; same count; each carries the attendee's email and its name as display name |
| Calendar.CreatePayload | src/store/calendarStore.ts:58-71 | the created resource carries the event's title as summary, its description, start, end, location and mapped attendees |
| Calendar.UpdatePayload | src/store/calendarStore.ts:92-105 | summary, description and location sent are those of the merged event; start and end are exactly the update's own; attendees are sent iff the update carries them |
| Calendar.UpdatePayloadMatchesMerge | src/store/calendarStore.ts:92-105 | summary, description and location sent equal those of the merged event; start, end and attendees are sent iff the update carries them, and then equal the merged values |
| Calendar.NewEvent | src/store/calendarStore.ts:51-73 | the new event has the fresh id; it takes the remote id only when connected and the create returned, otherwise it keeps the draft's; no other field differs from the draft |
| Calendar.EventWithId | src/store/calendarStore.ts:87 | none iff no event has the id; otherwise the first stored event with the id |
| Calendar.UpdatedEvents | src/store/calendarStore.ts:111-115 | same length; events with the id become the merge with the update; all others are unchanged at their positions |
| Calendar.EventsWithout | src/store/calendarStore.ts:130-132 | exactly the stored events whose id differs |
| Calendar.FromRemote | src/store/calendarStore.ts:164-179 | a listed remote event becomes a store event with the fresh id and the remote id, title the summary or empty, description, start, end and location as listed, attendees mapped (email or empty, display name as name, response kept), type meeting, status the remote one or confirmed, no client or project |
| Calendar.Mirrored | src/store/calendarStore.ts:164-179 | one store event per listed remote event, in listed order, each `FromRemote` of its item under the i-th fresh id: remote id, title (summary or empty), description, location, start, end, status (or confirmed), type meeting, no client or project |
| Calendar.InRange | src/store/calendarStore.ts:195-198 | exactly the stored events with start at or after `start` and end at or before `end` |
| Calendar.ForClient | src/store/calendarStore.ts:200-201 | exactly the stored events of that client |
| Calendar.ForProject | src/store/calendarStore.ts:203-204 | exactly the stored events of that project |
| Calendar.UpdateUnknownIsNoOp | src/store/calendarStore.ts:86-88 | an update naming no stored event leaves the table as it was |
| Calendar.DeleteUnknownIsNoOp | src/store/calendarStore.ts:118-120 | a delete naming no stored event leaves the table as it was |
| Calendar.AddedEventInRange | src/store/calendarStore.ts:195-198 | the appended event is returned last by every range query covering it, after the previous results |
| Calendar.Resynced | src/store/calendarStore.ts:181-187 | after a sync the table holds exactly the old local-only events and one mirrored event per listed item, and nothing else; its length is their sum |
| Calendar.ResyncKeepsLocalOnly | src/store/calendarStore.ts:181-187 | after a sync the local-only events are exactly the old local-only events, in their order |
| Calendar.ResyncLinkedAreFetched | src/store/calendarStore.ts:164-187 | after a sync the remote-linked events are exactly the fetched events, in listed order, each with a remote id |
| Calendar.ResyncTwice | src/store/calendarStore.ts:151-187 | syncing twice against the same remote list equals syncing once (with the second sync's ids) |
| Calendar.CalendarStore.constructor | src/store/calendarStore.ts:46-48 | no events, disconnected, not syncing, never synced |
| Calendar.CalendarStore.AddEvent | src/store/calendarStore.ts:50-84 | appends exactly the new event at the end, whatever the remote answer; sends a create only when connected; a disconnected add carries no new remote id; flags unchanged |
| Calendar.CalendarStore.UpdateEvent | src/store/calendarStore.ts:86-116 | unknown id: no change, no call; otherwise the table is `UpdatedEvents`, whatever the remote answer; an update is sent only for a connected store and a remote-linked first match |
| Calendar.CalendarStore.DeleteEvent | src/store/calendarStore.ts:118-133 | unknown id: no change, no call; otherwise the table is `EventsWithout`, whatever the remote answer; a delete is sent only when connected and linked |
| Calendar.CalendarStore.SyncWithGoogle | src/store/calendarStore.ts:151-193 | disconnected: nothing changes and nothing is sent; otherwise lists the window of one month back and three ahead around the clock read before the request; on an answer the table becomes the local-only events then the fetched ones, and the sync time is the clock read after the answer; on failure table and sync time are kept; not syncing afterwards |
| Calendar.CalendarStore.ConnectGoogleCalendar | src/store/calendarStore.ts:135-145 | reports the first failing step (initialize, then authorize) and then changes nothing; on success connected and synced as `SyncWithGoogle`, with its two clock readings |
| Calendar.CalendarStore.DisconnectGoogleCalendar | src/store/calendarStore.ts:147-149 | clears the connected flag; events, syncing flag and sync time untouched |
| Calendar.CalendarStore.GetEventsByDateRange | src/store/calendarStore.ts:195-198 | exactly the stored events inside the range |
| Calendar.CalendarStore.GetEventsByClient | src/store/calendarStore.ts:200-201 | exactly the stored events of the client |
| Calendar.CalendarStore.GetEventsByProject | src/store/calendarStore.ts:203-204 | exactly the stored events of the project |
| Sales.MergeDeal | src/store/salesStore.ts:58 | definition: `{ ...deal, ...updates, updatedAt: now }`, patched fields replaced, the rest kept, then stamped |
| Sales.MergeActivity | src/store/salesStore.ts:76 | definition: `{ ...activity, ...updates, updatedAt: now }` |
| Sales.MergeProposal | src/store/salesStore.ts:93 | definition: `{ ...proposal, ...updates, updatedAt: now }` |
| Sales.MergeCommission | src/store/salesStore.ts:118 | definition: `{ ...commission, ...updates, updatedAt: now }` |
| Sales.DealsUpdated | src/store/salesStore.ts:55-60 | deals with the id merged and stamped `updatedAt := now`; every other deal unchanged at its position |
| Sales.DealsWithout | src/store/salesStore.ts:64 | exactly the deals whose id differs |
| Sales.ActivitiesNotOfDeal | src/store/salesStore.ts:65 | exactly the activities of other deals |
| Sales.ProposalsNotOfDeal | src/store/salesStore.ts:66 | exactly the proposals of other deals |
| Sales.ActivitiesUpdated | src/store/salesStore.ts:72-79 | matching activities merged and stamped; others unchanged |
| Sales.ActivitiesWithout | src/store/salesStore.ts:81-84 | exactly the activities whose id differs |
| Sales.ProposalsUpdated | src/store/salesStore.ts:89-96 | matching proposals merged and stamped; others unchanged |
| Sales.ProposalsWithout | src/store/salesStore.ts:98-101 | exactly the proposals whose id differs |
| Sales.CommissionsUpdated | src/store/salesStore.ts:114-121 | matching commissions merged and stamped; others unchanged |
| Sales.CommissionsWithout | src/store/salesStore.ts:123-126 | exactly the commissions whose id differs |
| Sales.ForecastsFor | src/store/salesStore.ts:134-135 | exactly the forecasts of the period |
| Sales.ForecastsNotFor | src/store/salesStore.ts:106 | exactly the forecasts of other periods |
| Sales.Upserted | src/store/salesStore.ts:103-109 | the new forecast is last; every other forecast is an old one of another period |
| Sales.ForecastByPeriod | src/store/salesStore.ts:134-135 | none iff no forecast has the period; otherwise the first stored forecast of the period |
| Sales.DealsInStage | src/store/salesStore.ts:131-132 | exactly the deals in the stage |
| Sales.CommissionsOfRep | src/store/salesStore.ts:137-138 | exactly the commissions of the sales rep |
| Sales.UpsertLeavesOnlyNew | src/store/salesStore.ts:103-109 | after the upsert the forecasts of the period are exactly `[f]` |
| Sales.UpsertKeepsOtherPeriods | src/store/salesStore.ts:106 | the forecasts of every other period are kept, in their order |
| Sales.UpsertThenLookup | src/store/salesStore.ts:103-135 | after `updateForecast(f)`, `getForecastByPeriod(f.period)` is `f` |
| Sales.UpsertIdempotent | src/store/salesStore.ts:103-109 | upserting the same forecast twice equals once |
| Sales.DeleteDealKeepsLinks | src/store/salesStore.ts:62-67 | the cascade keeps every remaining activity and proposal attached to a remaining deal; the deleted id is gone |
| Sales.SalesStore.constructor | src/store/salesStore.ts:45-50 | all tables empty, nothing selected |
| Sales.SalesStore.AddDeal | src/store/salesStore.ts:52-53 | appends the deal; other fields unchanged |
| Sales.SalesStore.UpdateDeal | src/store/salesStore.ts:55-60 | deals become `DealsUpdated`; other tables unchanged |
| Sales.SalesStore.DeleteDeal | src/store/salesStore.ts:62-67 | removes the deal with its activities and proposals; commissions and forecasts untouched; keeps the links intact |
| Sales.SalesStore.AddActivity | src/store/salesStore.ts:69-70 | appends the activity |
| Sales.SalesStore.UpdateActivity | src/store/salesStore.ts:72-79 | activities become `ActivitiesUpdated` |
| Sales.SalesStore.DeleteActivity | src/store/salesStore.ts:81-84 | activities become `ActivitiesWithout` |
| Sales.SalesStore.AddProposal | src/store/salesStore.ts:86-87 | appends the proposal |
| Sales.SalesStore.UpdateProposal | src/store/salesStore.ts:89-96 | proposals become `ProposalsUpdated` |
| Sales.SalesStore.DeleteProposal | src/store/salesStore.ts:98-101 | proposals become `ProposalsWithout` |
| Sales.SalesStore.UpdateForecast | src/store/salesStore.ts:103-109 | forecasts become `Upserted`; exactly `[f]` has the period and the lookup finds `f` |
| Sales.SalesStore.AddCommission | src/store/salesStore.ts:111-112 | appends the commission |
| Sales.SalesStore.UpdateCommission | src/store/salesStore.ts:114-121 | commissions become `CommissionsUpdated` |
| Sales.SalesStore.DeleteCommission | src/store/salesStore.ts:123-126 | commissions become `CommissionsWithout` |
| Sales.SalesStore.SetSelectedDeal | src/store/salesStore.ts:128-129 | changes the selection only |
| Sales.SalesStore.GetDealsByStage | src/store/salesStore.ts:131-132 | exactly the stored deals in the stage |
| Sales.SalesStore.GetForecastByPeriod | src/store/salesStore.ts:134-135 | none iff no stored forecast has the period; otherwise the first stored forecast of the period |
| Sales.SalesStore.GetCommissionsBySalesRep | src/store/salesStore.ts:137-138 | exactly the stored commissions of the rep |
| Integration.InitialConfigurations | src/store/integrationStore.ts:23-68 | definition: the two sample configurations (Google Analytics and Facebook) with their credentials, status and usage |
| Integration.InitialAccounts | src/store/integrationStore.ts:69-94 | definition: the two sample accounts, one per sample configuration |
| Integration.MergeConfig | src/store/integrationStore.ts:102 | definition: `{ ...config, ...updates }` |
| Integration.MergeAccount | src/store/integrationStore.ts:118 | definition: `{ ...account, ...updates }` |
| Integration.InitialStateAttached | src/store/integrationStore.ts:23-94 | every initial account names an initial configuration |
| Integration.ConfigsUpdated | src/store/integrationStore.ts:99-104 | matching configurations merged; others unchanged |
| Integration.ConfigsWithout | src/store/integrationStore.ts:108 | exactly the configurations whose id differs |
| Integration.AccountsNotOf | src/store/integrationStore.ts:109 | exactly the accounts of other configurations |
| Integration.AccountsUpdated | src/store/integrationStore.ts:115-120 | matching accounts merged; others unchanged |
| Integration.AccountsWithout | src/store/integrationStore.ts:122-125 | exactly the accounts whose id differs |
| Integration.WithStatus | src/store/integrationStore.ts:130-139 | sets status and the error message (none clears it); refreshes `lastSync` only for active; keeps usage and every other field |
| Integration.StatusUpdated | src/store/integrationStore.ts:127-142 | matching configurations get `WithStatus`; others unchanged |
| Integration.StatusUpdateKeepsAttached | src/store/integrationStore.ts:127-142 | a status update keeps every account attached |
| Integration.RemoveConfigurationKeepsAttached | src/store/integrationStore.ts:106-110 | the cascade keeps every remaining account attached |
| Integration.RemoveAccountKeepsAttached | src/store/integrationStore.ts:122-125 | removing an account keeps the rest attached |
| Integration.IntegrationStore.constructor | src/store/integrationStore.ts:23-94 | the two sample configurations and their two accounts, attached |
| Integration.IntegrationStore.AddConfiguration | src/store/integrationStore.ts:96-97 | appends the configuration; accounts untouched |
| Integration.IntegrationStore.UpdateConfiguration | src/store/integrationStore.ts:99-104 | configurations become `ConfigsUpdated`; accounts untouched |
| Integration.IntegrationStore.RemoveConfiguration | src/store/integrationStore.ts:106-110 | removes the configuration and its accounts; keeps attachment |
| Integration.IntegrationStore.AddAccount | src/store/integrationStore.ts:112-113 | appends the account |
| Integration.IntegrationStore.UpdateAccount | src/store/integrationStore.ts:115-120 | accounts become `AccountsUpdated` |
| Integration.IntegrationStore.RemoveAccount | src/store/integrationStore.ts:122-125 | accounts become `AccountsWithout`; keeps attachment |
| Integration.IntegrationStore.UpdateIntegrationStatus | src/store/integrationStore.ts:127-142 | configurations become `StatusUpdated`; accounts untouched; keeps attachment |
| Team.MergeMember | src/store/teamStore.ts:38 | definition: `{ ...member, ...updates }` |
| Team.MergeDepartment | src/store/teamStore.ts:58 | definition: `{ ...dept, ...updates }` |
| Team.MembersUpdated | src/store/teamStore.ts:35-40 | matching members merged; others unchanged |
| Team.MembersWithout | src/store/teamStore.ts:44 | exactly the members whose id differs |
| Team.IdsWithout | src/store/teamStore.ts:47 | exactly the ids other than the member's |
| Team.Unstaffed | src/store/teamStore.ts:45-49 | the member's id gone from the department's list; the lead cleared iff it was the member; nothing else changed |
| Team.DepartmentsWithoutMember | src/store/teamStore.ts:45-49 | every department unstaffed of the member |
| Team.DepartmentsUpdated | src/store/teamStore.ts:55-60 | matching departments merged; others unchanged |
| Team.DepartmentsWithout | src/store/teamStore.ts:62-65 | exactly the departments whose id differs |
| Team.Assigned | src/store/teamStore.ts:67-74 | the named department gets the member appended unless it lists it already; every other department unchanged |
| Team.Unassigned | src/store/teamStore.ts:76-83 | the named department loses the id; every other department unchanged |
| Team.RemoveMemberLeavesNoTrace | src/store/teamStore.ts:42-50 | afterwards no department lists or is led by the member |
| Team.AssignIdempotent | src/store/teamStore.ts:67-74 | assigning twice equals assigning once |
| Team.AssignKeepsNoDuplicates | src/store/teamStore.ts:70-71 | assignment never creates a duplicate id in a member list |
| Team.AssignListsMember | src/store/teamStore.ts:67-74 | afterwards the named department lists the member |
| Team.TeamStore.constructor | src/store/teamStore.ts:28-30 | empty tables, nothing selected |
| Team.TeamStore.AddMember | src/store/teamStore.ts:32-33 | appends the member |
| Team.TeamStore.UpdateMember | src/store/teamStore.ts:35-40 | members become `MembersUpdated`; departments untouched |
| Team.TeamStore.RemoveMember | src/store/teamStore.ts:42-50 | removes the member and strips it from every department's list and lead |
| Team.TeamStore.AddDepartment | src/store/teamStore.ts:52-53 | appends the department |
| Team.TeamStore.UpdateDepartment | src/store/teamStore.ts:55-60 | departments become `DepartmentsUpdated` |
| Team.TeamStore.RemoveDepartment | src/store/teamStore.ts:62-65 | removes the department; members untouched |
| Team.TeamStore.AssignMemberToDepartment | src/store/teamStore.ts:67-74 | departments become `Assigned`; member lists without duplicates stay so |
| Team.TeamStore.RemoveMemberFromDepartment | src/store/teamStore.ts:76-83 | departments become `Unassigned` |
| Team.TeamStore.SetSelectedMember | src/store/teamStore.ts:85-86 | changes the selection only |
| Notes.MergeTemplate | src/store/noteStore.ts:79 | definition: `{ ...template, ...updates }` |
| Notes.InThread | src/store/noteStore.ts:56 | definition: the note is the deleted one or a direct reply to it, the notes `deleteNote` drops |
| Notes.StrategyTemplate | src/store/noteStore.ts:27-33 | definition: the stock strategy-meeting template, id `template-1`, with its name, category, content and tags |
| Notes.IssueTemplate | src/store/noteStore.ts:34-40 | definition: the stock issue-report template, id `template-2`, with its name, category, content and tags |
| Notes.MergeNote | src/store/noteStore.ts:50 | the merged note is stamped with `now` |
| Notes.InitialTemplateIds | src/store/noteStore.ts:26-41 | the two stock templates have ids `template-1` and `template-2`, which differ |
| Notes.NotesUpdated | src/store/noteStore.ts:47-52 | matching notes merged and stamped `updatedAt := now`; others unchanged |
| Notes.NotesWithoutThread | src/store/noteStore.ts:54-57 | exactly the notes that are neither the note nor a direct reply to it |
| Notes.Reply | src/store/noteStore.ts:59-71 | the reply has the fresh id and the parent; created and updated at their own two clock readings; client, category, content, author, mentions, attachments and template from the draft |
| Notes.TemplatesUpdated | src/store/noteStore.ts:76-81 | matching templates merged; others unchanged |
| Notes.TemplatesWithout | src/store/noteStore.ts:83-86 | exactly the templates whose id differs |
| Notes.DeleteKeepsGrandchildren | src/store/noteStore.ts:54-57 | a reply to the deleted note goes; a reply to that reply stays |
| Notes.DeleteRemovesNewReply | src/store/noteStore.ts:54-71 | deleting `p` right after replying to `p` is deleting `p` before the reply |
| Notes.DeleteNoteIdempotent | src/store/noteStore.ts:54-57 | deleting twice equals deleting once |
| Notes.NoteStore.constructor | src/store/noteStore.ts:25-42 | no notes, the two stock templates in order (`template-1`, then `template-2`), nothing selected |
| Notes.NoteStore.AddNote | src/store/noteStore.ts:44-45 | appends the note |
| Notes.NoteStore.UpdateNote | src/store/noteStore.ts:47-52 | notes become `NotesUpdated`; templates untouched |
| Notes.NoteStore.DeleteNote | src/store/noteStore.ts:54-57 | notes become `NotesWithoutThread`; no note left has the id or the parent |
| Notes.NoteStore.ReplyToNote | src/store/noteStore.ts:59-71 | appends the reply under the parent, whether or not the parent exists, stamped with two separate clock readings |
| Notes.NoteStore.AddTemplate | src/store/noteStore.ts:73-74 | appends the template; notes untouched |
| Notes.NoteStore.UpdateTemplate | src/store/noteStore.ts:76-81 | templates become `TemplatesUpdated`; notes untouched |
| Notes.NoteStore.DeleteTemplate | src/store/noteStore.ts:83-86 | templates become `TemplatesWithout`; notes untouched |
| Notes.NoteStore.SetSelectedNote | src/store/noteStore.ts:88-89 | changes the selection only |
| Projects.MergeProject | src/store/projectStore.ts:47 | definition: `{ ...project, ...updates }` |
| Projects.MergeTask | src/store/projectStore.ts:72 | definition: `{ ...task, ...updates }` |
| Projects.MergeMilestone | src/store/projectStore.ts:108 | definition: `{ ...milestone, ...updates }` |
| Projects.MergeCampaign | src/store/projectStore.ts:134 | definition: `{ ...campaign, ...updates }` |
| Projects.TasksUpdated | src/store/projectStore.ts:71-73 | matching tasks merged; others unchanged |
| Projects.TasksWithout | src/store/projectStore.ts:85 | exactly those tasks whose id differs |
| Projects.MilestonesUpdated | src/store/projectStore.ts:106-110 | matching milestones merged; others unchanged |
| Projects.MilestonesWithout | src/store/projectStore.ts:122 | exactly the milestones whose id differs |
| Projects.ProjectsUpdated | src/store/projectStore.ts:44-49 | matching projects merged; others unchanged |
| Projects.ProjectsWithout | src/store/projectStore.ts:51-54 | exactly the projects whose id differs |
| Projects.WithTaskAdded | src/store/projectStore.ts:56-63 | a task appended to the named project's tasks; other projects unchanged |
| Projects.WithTaskUpdated | src/store/projectStore.ts:65-77 | a task merged inside the named project; other projects unchanged |
| Projects.WithTaskRemoved | src/store/projectStore.ts:79-89 | a task removed from the named project; other projects unchanged |
| Projects.WithMilestoneAdded | src/store/projectStore.ts:91-98 | the milestone appended to the named project; others unchanged |
| Projects.WithMilestoneUpdated | src/store/projectStore.ts:100-114 | the milestone merged inside the named project; others unchanged |
| Projects.WithMilestoneRemoved | src/store/projectStore.ts:116-126 | the milestone removed from the named project; others unchanged |
| Projects.CampaignsUpdated | src/store/projectStore.ts:131-136 | matching campaigns merged; others unchanged |
| Projects.CampaignsWithout | src/store/projectStore.ts:138-141 | exactly the campaigns whose id differs |
| Projects.AddTaskToMissingProject | src/store/projectStore.ts:56-63 | adding a task to a project that does not exist changes nothing |
| Projects.AddMilestoneToMissingProject | src/store/projectStore.ts:91-98 | adding a milestone to a project that does not exist changes nothing |
| Projects.TaskAddDeleteRoundTrip | src/store/projectStore.ts:56-89 | removing a freshly appended task restores the list of tasks |
| Projects.AddThenDeleteTask | src/store/projectStore.ts:56-89 | `deleteTask(p, t.id)` undoes `addTask(p, t)` when the id was fresh in `p` |
| Projects.MilestoneAddDeleteRoundTrip | src/store/projectStore.ts:91-126 | removing a freshly appended milestone restores the list |
| Projects.AddThenDeleteMilestone | src/store/projectStore.ts:91-126 | `deleteMilestone(p, m.id)` undoes `addMilestone(p, m)` when the id was fresh in `p` |
| Projects.UpdateTaskLeavesOtherProjects | src/store/projectStore.ts:65-77 | a task in another project is unchanged, even one with the same id |
| Projects.ProjectStore.constructor | src/store/projectStore.ts:36-39 | empty tables, nothing selected |
| Projects.ProjectStore.AddProject | src/store/projectStore.ts:41-42 | appends the project; campaigns untouched |
| Projects.ProjectStore.UpdateProject | src/store/projectStore.ts:44-49 | projects become `ProjectsUpdated` |
| Projects.ProjectStore.DeleteProject | src/store/projectStore.ts:51-54 | projects become `ProjectsWithout`; campaigns untouched |
| Projects.ProjectStore.AddTask | src/store/projectStore.ts:56-63 | projects become `WithTaskAdded`; unchanged when no project has the id |
| Projects.ProjectStore.UpdateTask | src/store/projectStore.ts:65-77 | projects become `WithTaskUpdated` |
| Projects.ProjectStore.DeleteTask | src/store/projectStore.ts:79-89 | projects become `WithTaskRemoved` |
| Projects.ProjectStore.AddMilestone | src/store/projectStore.ts:91-98 | projects become `WithMilestoneAdded`; unchanged when no project has the id |
| Projects.ProjectStore.UpdateMilestone | src/store/projectStore.ts:100-114 | projects become `WithMilestoneUpdated` |
| Projects.ProjectStore.DeleteMilestone | src/store/projectStore.ts:116-126 | projects become `WithMilestoneRemoved` |
| Projects.ProjectStore.AddCampaign | src/store/projectStore.ts:128-129 | appends the campaign; projects untouched |
| Projects.ProjectStore.UpdateCampaign | src/store/projectStore.ts:131-136 | campaigns become `CampaignsUpdated`; projects untouched |
| Projects.ProjectStore.DeleteCampaign | src/store/projectStore.ts:138-141 | campaigns become `CampaignsWithout`; projects untouched |
| Projects.ProjectStore.SetSelectedProject | src/store/projectStore.ts:143-144 | changes that selection only |
| Projects.ProjectStore.SetSelectedCampaign | src/store/projectStore.ts:146-147 | changes that selection only |
| AdvertisingSchema.ValidAccount | src/types/advertising.ts:50-83 | definition: the schema's acceptance rule, an object with a listed platform, non-empty name and account id strings, valid credentials and valid settings |
| AdvertisingSchema.ValidCredentials | src/types/advertising.ts:67-75 | definition: an object whose seven credential keys are each missing or a string |
| AdvertisingSchema.ValidSettings | src/types/advertising.ts:76-82 | definition: an object with string currency and timezone and three flags each missing or a boolean |
| AdvertisingSchema.PlatformName | src/types/advertising.ts:3-15 | every platform's name is one of the twelve the schema lists |
| AdvertisingSchema.PlatformFromName | src/types/advertising.ts:51-64 | a platform iff the string is one of the twelve names, and then the platform with that name |
| AdvertisingSchema.PlatformRoundTrip | src/types/advertising.ts:51-64 | every platform's name parses back to it |
| AdvertisingSchema.OptionalString | src/types/advertising.ts:68-74 | accepts exactly a missing value or a string |
| AdvertisingSchema.OptionalBool | src/types/advertising.ts:79-81 | accepts exactly a missing value or a boolean |
| AdvertisingSchema.ParseCredentials | src/types/advertising.ts:67-75 | succeeds iff the value is an object whose seven keys are each missing or a string |
| AdvertisingSchema.ParseSettings | src/types/advertising.ts:76-82 | succeeds iff the value is an object with string currency and timezone and three optional booleans |
| AdvertisingSchema.Parse | src/types/advertising.ts:50-83 | succeeds iff the value is accepted (platform listed, name and account id non-empty strings, credentials and settings valid); the result carries the input's platform, name and account id |
| AdvertisingSchema.CredentialsRoundTrip | src/types/advertising.ts:67-75 | any credentials parse back from their encoding |
| AdvertisingSchema.SettingsRoundTrip | src/types/advertising.ts:76-82 | any settings parse back from their encoding |
| AdvertisingSchema.FormRoundTrip | src/types/advertising.ts:50-83 | a form with non-empty name and account id parses back to itself |
| AdvertisingSchema.EmptyNameRejected | src/types/advertising.ts:65-66 | a form with an empty name or an empty account id is rejected |
| AdvertisingSchema.ParseIdempotent | src/types/advertising.ts:50-83 | parsing what a parse produced gives the same form |
| AdvertisingSchema.EmptyCredentialsAccepted | src/types/advertising.ts:67-75 | a credentials object without any key is accepted |
| AdvertisingSchema.SettingsNeedCurrencyAndTimezone | src/types/advertising.ts:77-78 | settings without a string currency or timezone are rejected |
| AdvertisingSchema.InitialFormRejected | src/components/advertising/AddAccountModal.tsx:13-33 | the modal's starting form (no platform chosen) is rejected |
| Advertising.MergeAccount | src/store/advertisingStore.ts:28 | definition: `{ ...account, ...updates }` |
| Advertising.AccountsUpdated | src/store/advertisingStore.ts:25-30 | matching accounts merged; others unchanged |
| Advertising.AccountsWithout | src/store/advertisingStore.ts:32-35 | exactly the accounts whose id differs |
| Advertising.Verified | src/store/advertisingStore.ts:43-51 | status active on success and error on failure; the error message cleared on success and set to the failure text otherwise; `lastVerified := now`; spend limit and every other field kept |
| Advertising.AccountsVerified | src/store/advertisingStore.ts:40-54 | matching accounts verified; others unchanged |
| Advertising.OwningClient | src/components/advertising/AddAccountModal.tsx:46 | the given client when present and non-empty, else `global` |
| Advertising.AccountFromForm | src/components/advertising/AddAccountModal.tsx:44-50 | the form's fields under the fresh id and owning client, pending, with empty metadata |
| Advertising.LastVerificationWins | src/store/advertisingStore.ts:37-56 | a second verification overrides the first entirely |
| Advertising.VerifyKeepsIds | src/store/advertisingStore.ts:40-54 | verification keeps every account's id at its position |
| Advertising.AdvertisingStore.constructor | src/store/advertisingStore.ts:19-20 | no accounts, nothing selected |
| Advertising.AdvertisingStore.AddAccount | src/store/advertisingStore.ts:22-23 | appends the account |
| Advertising.AdvertisingStore.UpdateAccount | src/store/advertisingStore.ts:25-30 | accounts become `AccountsUpdated` |
| Advertising.AdvertisingStore.RemoveAccount | src/store/advertisingStore.ts:32-35 | accounts become `AccountsWithout` |
| Advertising.AdvertisingStore.VerifyAccount | src/store/advertisingStore.ts:37-56 | succeeds iff the draw exceeds 0.1; applies that outcome to the matching accounts and returns it, even for an unknown id |
| Advertising.AdvertisingStore.SubmitAccountForm | src/components/advertising/AddAccountModal.tsx:38-54 | adds an account iff the schema accepts the form, and then exactly the account built from the parsed form; otherwise nothing changes |
| Advertising.AdvertisingStore.SetSelectedAccount | src/store/advertisingStore.ts:58-59 | changes the selection only |
| Clients.MergeClient | src/store/clientStore.ts:41 | definition: `{ ...client, ...updates }` |
| Clients.MergeDocument | src/store/clientStore.ts:58 | definition: `{ ...doc, ...updates }` |
| Clients.MergeIntegration | src/store/clientStore.ts:75 | definition: `{ ...integration, ...updates }` |
| Clients.ClientsUpdated | src/store/clientStore.ts:38-43 | matching clients merged; others unchanged |
| Clients.ClientsArchived | src/store/clientStore.ts:45-50 | matching clients archived with no other field changed; other clients unchanged; nobody removed |
| Clients.DocumentsUpdated | src/store/clientStore.ts:55-60 | matching documents merged; others unchanged |
| Clients.DocumentsArchived | src/store/clientStore.ts:62-67 | matching documents archived with no other field changed; others unchanged |
| Clients.IntegrationsUpdated | src/store/clientStore.ts:72-77 | matching integrations merged; others unchanged |
| Clients.IntegrationsWithout | src/store/clientStore.ts:79-82 | exactly the integrations whose id differs |
| Clients.ArchiveClientIdempotent | src/store/clientStore.ts:45-50 | archiving twice equals archiving once |
| Clients.ArchiveDocumentIdempotent | src/store/clientStore.ts:62-67 | archiving twice equals archiving once |
| Clients.ArchiveIsStatusUpdate | src/store/clientStore.ts:38-50 | archiving equals the update that carries only `status: archived` |
| Clients.RemoveIntegrationKeepsOrder | src/store/clientStore.ts:79-82 | removal commutes with appending an integration of another id |
| Clients.ClientStore.constructor | src/store/clientStore.ts:30-33 | empty tables, nothing selected |
| Clients.ClientStore.AddClient | src/store/clientStore.ts:35-36 | appends the client |
| Clients.ClientStore.UpdateClient | src/store/clientStore.ts:38-43 | clients become `ClientsUpdated` |
| Clients.ClientStore.ArchiveClient | src/store/clientStore.ts:45-50 | clients become `ClientsArchived`; documents untouched |
| Clients.ClientStore.AddDocument | src/store/clientStore.ts:52-53 | appends the document |
| Clients.ClientStore.UpdateDocument | src/store/clientStore.ts:55-60 | documents become `DocumentsUpdated` |
| Clients.ClientStore.ArchiveDocument | src/store/clientStore.ts:62-67 | documents become `DocumentsArchived` |
| Clients.ClientStore.AddIntegration | src/store/clientStore.ts:69-70 | appends the integration |
| Clients.ClientStore.UpdateIntegration | src/store/clientStore.ts:72-77 | integrations become `IntegrationsUpdated` |
| Clients.ClientStore.RemoveIntegration | src/store/clientStore.ts:79-82 | integrations become `IntegrationsWithout` |
| Clients.ClientStore.SetSelectedClient | src/store/clientStore.ts:84-85 | changes the selection only |
| Communication.MergeCommunication | src/store/communicationStore.ts:37 | definition: `{ ...comm, ...updates }` |
| Communication.CommunicationsUpdated | src/store/communicationStore.ts:34-39 | matching records merged; others unchanged |
| Communication.CommunicationsWithout | src/store/communicationStore.ts:40-43 | exactly the records whose id differs |
| Communication.OfClient | src/store/communicationStore.ts:44-45 | exactly the records of the client |
| Communication.AddShowsInClientView | src/store/communicationStore.ts:30-45 | a new record shows up last in its own client's view and in no other |
| Communication.DeleteCommutesWithView | src/store/communicationStore.ts:40-45 | viewing a client after a delete is deleting from the client's view |
| Communication.CommunicationStore.constructor | src/store/communicationStore.ts:29 | an empty log |
| Communication.CommunicationStore.AddCommunication | src/store/communicationStore.ts:30-33 | appends the record |
| Communication.CommunicationStore.UpdateCommunication | src/store/communicationStore.ts:34-39 | the log becomes `CommunicationsUpdated` |
| Communication.CommunicationStore.DeleteCommunication | src/store/communicationStore.ts:40-43 | the log becomes `CommunicationsWithout` |
| Communication.CommunicationStore.GetCommunicationsByClient | src/store/communicationStore.ts:44-45 | exactly the stored records of the client |

## Left out

- The remote calendar client (src/lib/googleCalendar.ts, over `gapi` and Google Identity Services) is not part of this model. Its answers are parameters (`CreateOutcome`, `CallOutcome`, `ListOutcome`, and the initialize and authorize flags), and the calendar actions return the request they sent.
- Concurrency: every action is one atomic step. Interleavings of overlapping `syncWithGoogle` and mutation calls, and the `await` ordering, are not modelled. So `isSyncing` is only observable as false once a sync returns.
- Id and clock generation (`String(Date.now())`, `Date.now() + Math.random()`, `new Date()`) are parameters. The model does not capture that two calls in the same millisecond collide on an id.
- Calendar.CalendarStore.SyncWithGoogle: the sync window is recorded as its anchor and month offsets. Calendar month arithmetic (`setMonth`), `toISOString` and time-zone resolution are not modelled. The source reads the clock twice for the window (`timeMin`, then `timeMax`); the model takes both bounds from the one reading `now`.
- Calendar.FromRemote: listed events arrive with start and end already resolved to time values. The `dateTime`-or-`date` choice and the invalid date produced when both are missing are not modelled.
- Calendar.FromRemote: the remote event status and attendee response are taken to be among the store's own values. The source casts whatever string arrives (`as any`), and such a string is not modelled.
- Calendar.ResyncKeepsLocalOnly, Calendar.ResyncLinkedAreFetched and Calendar.ResyncTwice assume every listed remote event has a non-empty id. The remote calendar guarantees this; the TypeScript type does not.
- A patch field that is present but `undefined` is modelled as absent: `{...x, ...u}` with an explicit `undefined` would clear an optional field, and the model keeps it instead.
- The fields below are not modelled. No action or query of the stores reads them, and the stores' own code never sets them. A `Partial<T>` update may carry one of them (`updateProject(id, { team })`, `updateClient(id, { contacts })`), and the spread would then replace it. The patch types cannot express such an update; a patch is modelled without these fields.
  - `Deal`: `currency`, `expectedCloseDate`, `actualCloseDate`, the nested `activities` and `proposals` arrays, `notes`, `tags` and `customFields`;
  - `Proposal`: `content` (products, services, terms, validity) and `respondedAt`;
  - `SalesForecast`: the `deals` breakdown;
  - `TeamMember`: `permissions` and `metadata`;
  - `Project`: `team`, `attachments` and `metadata.customFields`;
  - `ProjectTask`: `attachments`;
  - `ProjectMilestone`: `deliverables`;
  - `Campaign`: `channels`, `metrics` and `assets`;
  - `Client`: `contacts`, `servicePackages`, `customFields`, `activities` and `metrics`;
  - the client `Integration` record: `credentials` and `metadata`;
  - `IntegrationConfig`: `settings`;
  - `IntegrationAccount`: `metadata`.
- Numeric amounts (deal values, budgets, spend limits, durations) are `real`; floating-point rounding is not modelled. No action computes with them.
- AdvertisingSchema.Parse: zod's error report (the list of issues) is reduced to "rejected". Zod's string-length rule counts UTF-16 code units, and the model counts characters. Values the schema never sees (arrays, functions, dates) are not modelled.
- Advertising.AdvertisingStore.SubmitAccountForm: the handler spreads the raw form object, not the parse result. The model adds the parse result. For the modal's own form objects the two agree (AdvertisingSchema.FormRoundTrip). Closing the modal and logging the error are UI effects and are left out.
- Advertising.AdvertisingStore.VerifyAccount: the draw `Math.random()` is the parameter `roll`. The model does not restrict it to [0, 1).
- All `.tsx` components and pages other than the account modal's submit handler: rendering, routing, form state and the case-insensitive search filters.
- src/store/mockData.ts and src/store/index.ts: start-up side effects with no logic.
- Logging to the console in the error paths.
