/** The calendar store of src/store/calendarStore.ts: an in-memory list of
    events, best-effort mirrored to a remote (Google) calendar.

    The remote calendar is not called: every gateway answer (create, update,
    delete, list, initialize, authorize) is a parameter of the action that
    awaits it, and every action returns the request it sent as a
    `GatewayCall`. Each action is one atomic step. */
module Calendar {
  import opened Maybe
  import opened Tables

  type Id = string

  /** A JavaScript `Date`, as its millisecond time value. */
  type Time = int

  datatype EventKind = Meeting | Deadline | Task | OtherKind
  datatype EventStatus = Confirmed | Tentative | Cancelled
  datatype Response = NeedsAction | Declined | TentativeReply | Accepted

  datatype Attendee = Attendee(email: string, name: Option<string>, responseStatus: Option<Response>)

  datatype CalendarEvent = CalendarEvent(
    id: Id,
    title: string,
    description: Option<string>,
    start: Time,
    end: Time,
    location: Option<string>,
    attendees: Option<seq<Attendee>>,
    googleEventId: Option<Id>,
    clientId: Option<Id>,
    projectId: Option<Id>,
    kind: EventKind,
    status: EventStatus)

  /** `Partial<CalendarEvent>`: each field the update carries. */
  datatype EventPatch = EventPatch(
    id: Option<Id>,
    title: Option<string>,
    description: Option<string>,
    start: Option<Time>,
    end: Option<Time>,
    location: Option<string>,
    attendees: Option<seq<Attendee>>,
    googleEventId: Option<Id>,
    clientId: Option<Id>,
    projectId: Option<Id>,
    kind: Option<EventKind>,
    status: Option<EventStatus>)

  /** `{ ...e, ...u }`: every field the patch carries overrides the event's. */
  function Merge(e: CalendarEvent, u: EventPatch): CalendarEvent
  {
    CalendarEvent(
      Or(u.id, e.id), Or(u.title, e.title), OrElse(u.description, e.description),
      Or(u.start, e.start), Or(u.end, e.end), OrElse(u.location, e.location),
      OrElse(u.attendees, e.attendees), OrElse(u.googleEventId, e.googleEventId),
      OrElse(u.clientId, e.clientId), OrElse(u.projectId, e.projectId),
      Or(u.kind, e.kind), Or(u.status, e.status))
  }

  /** JavaScript truthiness of an optional string: present and not empty. */
  predicate Truthy(s: Option<string>) { s.Some? && s.value != "" }

  /** A local-only event: one whose remote id is missing or empty, so that no
      remote event mirrors it. */
  predicate LocalOnly(e: CalendarEvent) { !Truthy(e.googleEventId) }

  /** A remote-linked event: one that carries a non-empty remote id. */
  predicate RemoteLinked(e: CalendarEvent) { Truthy(e.googleEventId) }

  // ---------------------------------------------------------------------------
  // The remote calendar, as data

  datatype RemoteAttendee = RemoteAttendee(email: Option<string>, displayName: Option<string>, responseStatus: Option<Response>)

  /** An event as the remote calendar lists it; start and end are already resolved
      from `dateTime` or `date`. */
  datatype RemoteEvent = RemoteEvent(
    id: Option<Id>,
    summary: Option<string>,
    description: Option<string>,
    start: Time,
    end: Time,
    location: Option<string>,
    attendees: Option<seq<RemoteAttendee>>,
    status: Option<EventStatus>)

  datatype PayloadAttendee = PayloadAttendee(email: string, displayName: Option<string>)

  /** The event resource sent to the remote calendar (time zones left out). */
  datatype EventPayload = EventPayload(
    summary: string,
    description: Option<string>,
    start: Option<Time>,
    end: Option<Time>,
    location: Option<string>,
    attendees: Option<seq<PayloadAttendee>>)

  /** The request an action sent to the remote calendar, if any. */
  datatype GatewayCall =
    | NoCall
    | CreateCall(payload: EventPayload)
    | UpdateCall(remoteId: Id, payload: EventPayload)
    | DeleteCall(remoteId: Id)
    | ListCall(anchor: Time, monthsBefore: int, monthsAfter: int)

  /** The remote answer to a create request: the created resource's id, or a thrown error. */
  datatype CreateOutcome = Created(remoteId: Option<Id>) | CreateFailed

  /** The remote answer to an update or delete request. */
  datatype CallOutcome = Succeeded | CallFailed

  /** The remote answer to a list request. */
  datatype ListOutcome = Listed(items: seq<RemoteEvent>) | ListFailed

  /** What `connectGoogleCalendar` reports: success, or the error it rethrows. */
  datatype ConnectResult = ConnectOk | InitializeError | AuthorizeError

  /** The sync window: one month back, three months ahead. */
  const SyncMonthsBefore := 1
  const SyncMonthsAfter := 3

  // ---------------------------------------------------------------------------
  // Payloads

  /** `attendees?.map(({ email, name }) => ({ email, displayName: name }))` */
  function ToPayloadAttendees(a: Option<seq<Attendee>>): (r: Option<seq<PayloadAttendee>>)
    ensures r.Some? <==> a.Some?
    ensures r.Some? ==> |r.value| == |a.value|
    ensures r.Some? ==> forall i :: 0 <= i < |a.value| ==>
      r.value[i].email == a.value[i].email && r.value[i].displayName == a.value[i].name
  {
    match a
    case None => None
    case Some(s) => Some(seq(|s|, i requires 0 <= i < |s| => PayloadAttendee(s[i].email, s[i].name)))
  }

  /** The resource `addEvent` asks the remote calendar to create. */
  function CreatePayload(data: CalendarEvent): (p: EventPayload)
    ensures p.summary == data.title && p.description == data.description && p.location == data.location
    ensures p.start == Some(data.start) && p.end == Some(data.end)
    ensures p.attendees == ToPayloadAttendees(data.attendees)
  {
    EventPayload(data.title, data.description, Some(data.start), Some(data.end),
                 data.location, ToPayloadAttendees(data.attendees))
  }

  /** The resource `updateEvent` sends for the stored event `e`: title, description
      and location from the update when it carries them and from `e` otherwise;
      start, end and attendees only when the update carries them. */
  function UpdatePayload(e: CalendarEvent, u: EventPatch): (p: EventPayload)
    ensures p.summary == Merge(e, u).title && p.description == Merge(e, u).description
    ensures p.location == Merge(e, u).location
    ensures p.start == u.start && p.end == u.end
    ensures p.attendees.Some? <==> u.attendees.Some?
  {
    EventPayload(Or(u.title, e.title), OrElse(u.description, e.description),
                 u.start, u.end, OrElse(u.location, e.location),
                 ToPayloadAttendees(u.attendees))
  }

  /** The title, description and location sent are the ones the local store holds
      after the update; start, end and attendees are sent exactly when the update
      carries them, and then with the merged values. */
  lemma UpdatePayloadMatchesMerge(e: CalendarEvent, u: EventPatch)
    ensures var p, m := UpdatePayload(e, u), Merge(e, u);
      && p.summary == m.title && p.description == m.description && p.location == m.location
      && (p.start.Some? <==> u.start.Some?) && (p.start.Some? ==> p.start.value == m.start)
      && (p.end.Some? <==> u.end.Some?) && (p.end.Some? ==> p.end.value == m.end)
      && (p.attendees.Some? <==> u.attendees.Some?)
      && (p.attendees.Some? ==> p.attendees == ToPayloadAttendees(m.attendees))
  {
  }

  // ---------------------------------------------------------------------------
  // The pure table transitions behind the actions

  /** The event `addEvent` appends: the draft under its new id, with the remote id
      when the store was connected and the remote create returned. */
  function NewEvent(data: CalendarEvent, newId: Id, connected: bool, remote: CreateOutcome): (e: CalendarEvent)
    ensures e.id == newId
    ensures e.googleEventId == if connected && remote.Created? then remote.remoteId else data.googleEventId
    ensures e.(id := data.id, googleEventId := data.googleEventId) == data
  {
    var e := data.(id := newId);
    if connected && remote.Created? then e.(googleEventId := remote.remoteId) else e
  }

  /** The first event with this id, as `events.find(e => e.id === id)`. */
  function EventWithId(events: seq<CalendarEvent>, id: Id): (r: Option<CalendarEvent>)
    ensures r.None? <==> forall i :: 0 <= i < |events| ==> events[i].id != id
    ensures r.Some? ==> r.value in events && r.value.id == id
    ensures r.Some? ==> exists i :: 0 <= i < |events| && events[i] == r.value && forall j :: 0 <= j < i ==> events[j].id != id
  {
    Find(events, (e: CalendarEvent) => e.id == id)
  }

  /** `updateEvent`'s new table: every event with the id merged with the update,
      every other event as it was, at the same position. */
  function UpdatedEvents(events: seq<CalendarEvent>, id: Id, u: EventPatch): (r: seq<CalendarEvent>)
    ensures |r| == |events|
    ensures forall i :: 0 <= i < |events| && events[i].id == id ==> r[i] == Merge(events[i], u)
    ensures forall i :: 0 <= i < |events| && events[i].id != id ==> r[i] == events[i]
  {
    MapIf(events, (e: CalendarEvent) => e.id == id, (e: CalendarEvent) => Merge(e, u))
  }

  /** `deleteEvent`'s new table: the events without this id, in order. */
  function EventsWithout(events: seq<CalendarEvent>, id: Id): (r: seq<CalendarEvent>)
    ensures forall e | e in r :: e in events && e.id != id
    ensures forall e | e in events && e.id != id :: e in r
  {
    Filter(events, (e: CalendarEvent) => e.id != id)
  }

  /** A listed remote event as a store event under a fresh local id: the summary
      as title (empty when missing or empty), the remote status or `confirmed`,
      each attendee's email (empty when missing) and display name, type meeting,
      and no client or project. */
  function FromRemote(g: RemoteEvent, localId: Id): (r: CalendarEvent)
    ensures r.id == localId && r.googleEventId == g.id
    ensures r.title == Or(g.summary, "") && r.description == g.description && r.location == g.location
    ensures r.start == g.start && r.end == g.end
    ensures r.attendees.Some? <==> g.attendees.Some?
    ensures r.attendees.Some? ==> |r.attendees.value| == |g.attendees.value|
    ensures r.attendees.Some? ==> forall i :: 0 <= i < |g.attendees.value| ==>
      && r.attendees.value[i].email == Or(g.attendees.value[i].email, "")
      && r.attendees.value[i].name == g.attendees.value[i].displayName
      && r.attendees.value[i].responseStatus == g.attendees.value[i].responseStatus
    ensures r.kind == Meeting && r.status == Or(g.status, Confirmed)
    ensures r.clientId.None? && r.projectId.None?
  {
    CalendarEvent(
      localId, Or(g.summary, ""), g.description, g.start, g.end, g.location,
      match g.attendees
      case None => None
      case Some(a) => Some(seq(|a|, i requires 0 <= i < |a| =>
                            Attendee(Or(a[i].email, ""), a[i].displayName, a[i].responseStatus))),
      g.id, None, None, Meeting, Or(g.status, Confirmed))
  }

  /** The listed remote events, in the order listed, as store events; the i-th
      gets the fresh local id `newId(i)`. */
  function Mirrored(items: seq<RemoteEvent>, newId: nat -> Id): (r: seq<CalendarEvent>)
    ensures |r| == |items|
    ensures forall i :: 0 <= i < |items| ==> r[i] == FromRemote(items[i], newId(i))
    ensures forall i :: 0 <= i < |items| ==>
      && r[i].id == newId(i) && r[i].googleEventId == items[i].id
      && r[i].title == Or(items[i].summary, "") && r[i].description == items[i].description
      && r[i].location == items[i].location && r[i].status == Or(items[i].status, Confirmed)
      && r[i].start == items[i].start && r[i].end == items[i].end
      && r[i].kind == Meeting && r[i].clientId.None? && r[i].projectId.None?
  {
    seq(|items|, i requires 0 <= i < |items| => FromRemote(items[i], newId(i)))
  }

  /** Every listed remote event carries a non-empty remote id. */
  predicate AllIdentified(items: seq<RemoteEvent>)
  {
    forall i :: 0 <= i < |items| ==> Truthy(items[i].id)
  }

  /** The table after a successful sync: the local-only events in their order,
      then the fetched events. */
  function Resynced(events: seq<CalendarEvent>, items: seq<RemoteEvent>, newId: nat -> Id): (r: seq<CalendarEvent>)
    ensures |r| == |Filter(events, LocalOnly)| + |items|
    ensures forall e | e in events && LocalOnly(e) :: e in r
    ensures forall i :: 0 <= i < |items| ==> FromRemote(items[i], newId(i)) in r
    ensures forall e | e in r :: (e in events && LocalOnly(e)) || exists i :: 0 <= i < |items| && e == FromRemote(items[i], newId(i))
  {
    Filter(events, LocalOnly) + Mirrored(items, newId)
  }

  /** `getEventsByDateRange`: the events lying wholly inside [start, end], in store order. */
  function InRange(events: seq<CalendarEvent>, start: Time, end: Time): (r: seq<CalendarEvent>)
    ensures forall e | e in r :: e in events && start <= e.start && e.end <= end
    ensures forall e | e in events && start <= e.start && e.end <= end :: e in r
  {
    Filter(events, (e: CalendarEvent) => start <= e.start && e.end <= end)
  }

  /** `getEventsByClient`: the events of this client, in store order. */
  function ForClient(events: seq<CalendarEvent>, clientId: Id): (r: seq<CalendarEvent>)
    ensures forall e | e in r :: e in events && e.clientId == Some(clientId)
    ensures forall e | e in events && e.clientId == Some(clientId) :: e in r
  {
    Filter(events, (e: CalendarEvent) => e.clientId == Some(clientId))
  }

  /** `getEventsByProject`: the events of this project, in store order. */
  function ForProject(events: seq<CalendarEvent>, projectId: Id): (r: seq<CalendarEvent>)
    ensures forall e | e in r :: e in events && e.projectId == Some(projectId)
    ensures forall e | e in events && e.projectId == Some(projectId) :: e in r
  {
    Filter(events, (e: CalendarEvent) => e.projectId == Some(projectId))
  }

  // ---------------------------------------------------------------------------
  // Properties of the transitions

  /** An update naming no stored event leaves the table as it was. */
  lemma UpdateUnknownIsNoOp(events: seq<CalendarEvent>, id: Id, u: EventPatch)
    requires EventWithId(events, id).None?
    ensures UpdatedEvents(events, id, u) == events
  {
  }

  /** A delete naming no stored event leaves the table as it was. */
  lemma DeleteUnknownIsNoOp(events: seq<CalendarEvent>, id: Id)
    requires EventWithId(events, id).None?
    ensures EventsWithout(events, id) == events
  {
    FilterKeepsAll(events, (e: CalendarEvent) => e.id != id);
  }

  /** The event `addEvent` appends is the last one, and a range query over any
      interval covering it returns it. */
  lemma AddedEventInRange(events: seq<CalendarEvent>, e: CalendarEvent, start: Time, end: Time)
    requires start <= e.start && e.end <= end
    ensures InRange(events + [e], start, end) == InRange(events, start, end) + [e]
  {
    FilterSnoc(events, e, (x: CalendarEvent) => start <= x.start && x.end <= end);
  }

  /** Sync leaves every local-only event in place, in order, when each listed
      remote event has an id. */
  lemma {:induction false} ResyncKeepsLocalOnly(events: seq<CalendarEvent>, items: seq<RemoteEvent>, newId: nat -> Id)
    requires AllIdentified(items)
    ensures Filter(Resynced(events, items, newId), LocalOnly) == Filter(events, LocalOnly)
  {
    var local, fetched := Filter(events, LocalOnly), Mirrored(items, newId);
    FilterConcat(local, fetched, LocalOnly);
    FilterIdempotent(events, LocalOnly);
    FilterKeepsNone(fetched, LocalOnly);
  }

  /** After a sync the remote-linked events are exactly the fetched ones, in the
      order listed, each carrying its remote id. */
  lemma {:induction false} ResyncLinkedAreFetched(events: seq<CalendarEvent>, items: seq<RemoteEvent>, newId: nat -> Id)
    requires AllIdentified(items)
    ensures Filter(Resynced(events, items, newId), RemoteLinked) == Mirrored(items, newId)
    ensures forall e | e in Filter(Resynced(events, items, newId), RemoteLinked) :: Truthy(e.googleEventId)
  {
    var local, fetched := Filter(events, LocalOnly), Mirrored(items, newId);
    FilterConcat(local, fetched, RemoteLinked);
    FilterKeepsNone(local, RemoteLinked);
    FilterKeepsAll(fetched, RemoteLinked);
  }

  /** Syncing twice against the same remote list gives what the second sync alone
      gives: the same local-only events and the same fetched events, the latter
      under the second sync's fresh ids. */
  lemma {:induction false} ResyncTwice(events: seq<CalendarEvent>, items: seq<RemoteEvent>, first: nat -> Id, second: nat -> Id)
    requires AllIdentified(items)
    ensures Resynced(Resynced(events, items, first), items, second) == Resynced(events, items, second)
  {
    ResyncKeepsLocalOnly(events, items, first);
  }

  // ---------------------------------------------------------------------------
  // The store

  class CalendarStore {
    var events: seq<CalendarEvent>
    var isGoogleCalendarConnected: bool
    var isSyncing: bool
    var lastSyncTime: Option<Time>

    /** The initial state: no events, disconnected, not syncing, never synced. */
    constructor ()
      ensures events == [] && !isGoogleCalendarConnected && !isSyncing && lastSyncTime.None?
    {
      events := [];
      isGoogleCalendarConnected := false;
      isSyncing := false;
      lastSyncTime := None;
    }

    /** `addEvent`: asks the remote calendar to create the event when connected,
        then appends it whatever the answer; returns the appended event. */
    method AddEvent(data: CalendarEvent, newId: Id, remote: CreateOutcome) returns (added: CalendarEvent, call: GatewayCall)
      modifies this
      ensures added == NewEvent(data, newId, old(isGoogleCalendarConnected), remote)
      ensures events == old(events) + [added]
      ensures call == if old(isGoogleCalendarConnected) then CreateCall(CreatePayload(data)) else NoCall
      ensures !old(isGoogleCalendarConnected) ==> added.googleEventId == data.googleEventId
      ensures isGoogleCalendarConnected == old(isGoogleCalendarConnected)
      ensures isSyncing == old(isSyncing) && lastSyncTime == old(lastSyncTime)
    {
      added := data.(id := newId);
      call := NoCall;
      if isGoogleCalendarConnected {
        call := CreateCall(CreatePayload(data));
        if remote.Created? {
          added := added.(googleEventId := remote.remoteId);
        }
      }
      events := events + [added];
    }

    /** `updateEvent`: a no-op for an unknown id; otherwise sends the update for the
        first matching event when it is remote-linked and the store is connected,
        then merges the update into every event with the id, whatever the answer. */
    method UpdateEvent(eventId: Id, updates: EventPatch, remote: CallOutcome) returns (call: GatewayCall)
      modifies this
      ensures var found := EventWithId(old(events), eventId);
        && (found.None? ==> events == old(events))
        && call == (if found.Some? && old(isGoogleCalendarConnected) && Truthy(found.value.googleEventId)
                    then UpdateCall(found.value.googleEventId.value, UpdatePayload(found.value, updates))
                    else NoCall)
      ensures events == UpdatedEvents(old(events), eventId, updates)
      ensures isGoogleCalendarConnected == old(isGoogleCalendarConnected)
      ensures isSyncing == old(isSyncing) && lastSyncTime == old(lastSyncTime)
    {
      var found := EventWithId(events, eventId);
      if found.None? {
        UpdateUnknownIsNoOp(events, eventId, updates);
        return NoCall;
      }
      var event := found.value;
      call := NoCall;
      if isGoogleCalendarConnected && Truthy(event.googleEventId) {
        call := UpdateCall(event.googleEventId.value, UpdatePayload(event, updates));
      }
      events := UpdatedEvents(events, eventId, updates);
    }

    /** `deleteEvent`: a no-op for an unknown id; otherwise sends the delete for the
        first matching event when it is remote-linked and the store is connected,
        then removes every event with the id, whatever the answer. */
    method DeleteEvent(eventId: Id, remote: CallOutcome) returns (call: GatewayCall)
      modifies this
      ensures var found := EventWithId(old(events), eventId);
        && (found.None? ==> events == old(events))
        && call == (if found.Some? && old(isGoogleCalendarConnected) && Truthy(found.value.googleEventId)
                    then DeleteCall(found.value.googleEventId.value)
                    else NoCall)
      ensures events == EventsWithout(old(events), eventId)
      ensures isGoogleCalendarConnected == old(isGoogleCalendarConnected)
      ensures isSyncing == old(isSyncing) && lastSyncTime == old(lastSyncTime)
    {
      var found := EventWithId(events, eventId);
      if found.None? {
        DeleteUnknownIsNoOp(events, eventId);
        return NoCall;
      }
      var event := found.value;
      call := NoCall;
      if isGoogleCalendarConnected && Truthy(event.googleEventId) {
        call := DeleteCall(event.googleEventId.value);
      }
      events := EventsWithout(events, eventId);
    }

    /** `syncWithGoogle`: a no-op when disconnected. Otherwise lists the remote
        events of the window around `now` (the clock read before the request);
        on an answer replaces every remote-linked event with the fetched ones and
        records `syncedAt` (the clock read after the answer); on a failure keeps
        the events and the last sync time. Syncing is off afterwards. */
    method SyncWithGoogle(fetched: ListOutcome, newId: nat -> Id, now: Time, syncedAt: Time) returns (call: GatewayCall)
      modifies this
      ensures !old(isGoogleCalendarConnected) ==>
        call == NoCall && events == old(events) && isSyncing == old(isSyncing) && lastSyncTime == old(lastSyncTime)
      ensures old(isGoogleCalendarConnected) ==>
        && call == ListCall(now, SyncMonthsBefore, SyncMonthsAfter)
        && !isSyncing
        && (fetched.Listed? ==> events == Resynced(old(events), fetched.items, newId) && lastSyncTime == Some(syncedAt))
        && (fetched.ListFailed? ==> events == old(events) && lastSyncTime == old(lastSyncTime))
      ensures isGoogleCalendarConnected == old(isGoogleCalendarConnected)
    {
      if !isGoogleCalendarConnected {
        return NoCall;
      }
      isSyncing := true;
      call := ListCall(now, SyncMonthsBefore, SyncMonthsAfter);
      match fetched {
        case Listed(items) =>
          events := Resynced(events, items, newId);
          lastSyncTime := Some(syncedAt);
        case ListFailed =>
      }
      isSyncing := false;
    }

    /** `connectGoogleCalendar`: initializes, then authorizes; only when both
        succeed does the store become connected and sync at once. A failure of
        either is reported (rethrown) and changes nothing. */
    method ConnectGoogleCalendar(initialized: bool, authorized: bool, fetched: ListOutcome, newId: nat -> Id,
                                 now: Time, syncedAt: Time)
      returns (result: ConnectResult, calls: seq<GatewayCall>)
      modifies this
      ensures result == (if !initialized then InitializeError else if !authorized then AuthorizeError else ConnectOk)
      ensures result != ConnectOk ==>
        && calls == []
        && events == old(events) && isGoogleCalendarConnected == old(isGoogleCalendarConnected)
        && isSyncing == old(isSyncing) && lastSyncTime == old(lastSyncTime)
      ensures result == ConnectOk ==>
        && isGoogleCalendarConnected && !isSyncing
        && calls == [ListCall(now, SyncMonthsBefore, SyncMonthsAfter)]
        && (fetched.Listed? ==> events == Resynced(old(events), fetched.items, newId) && lastSyncTime == Some(syncedAt))
        && (fetched.ListFailed? ==> events == old(events) && lastSyncTime == old(lastSyncTime))
    {
      if !initialized {
        return InitializeError, [];
      }
      if !authorized {
        return AuthorizeError, [];
      }
      isGoogleCalendarConnected := true;
      var call := SyncWithGoogle(fetched, newId, now, syncedAt);
      return ConnectOk, [call];
    }

    /** `disconnectGoogleCalendar`: clears the flag and nothing else. */
    method DisconnectGoogleCalendar()
      modifies this
      ensures !isGoogleCalendarConnected
      ensures events == old(events) && isSyncing == old(isSyncing) && lastSyncTime == old(lastSyncTime)
    {
      isGoogleCalendarConnected := false;
    }

    /** `getEventsByDateRange`: the stored events wholly inside [start, end], in order. */
    function GetEventsByDateRange(start: Time, end: Time): (r: seq<CalendarEvent>)
      reads this
      ensures forall e | e in r :: e in events && start <= e.start && e.end <= end
      ensures forall e | e in events && start <= e.start && e.end <= end :: e in r
    {
      InRange(events, start, end)
    }

    /** `getEventsByClient`: the stored events of this client, in order. */
    function GetEventsByClient(clientId: Id): (r: seq<CalendarEvent>)
      reads this
      ensures forall e | e in r :: e in events && e.clientId == Some(clientId)
      ensures forall e | e in events && e.clientId == Some(clientId) :: e in r
    {
      ForClient(events, clientId)
    }

    /** `getEventsByProject`: the stored events of this project, in order. */
    function GetEventsByProject(projectId: Id): (r: seq<CalendarEvent>)
      reads this
      ensures forall e | e in r :: e in events && e.projectId == Some(projectId)
      ensures forall e | e in events && e.projectId == Some(projectId) :: e in r
    {
      ForProject(events, projectId)
    }
  }
}
