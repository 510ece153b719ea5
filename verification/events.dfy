/**
 * The event store behind `/api/events`: a module-level list of events, listed
 * with an optional location filter, looked up by id, and appended to by the
 * protected create route.
 */
module Events {
  import opened Wrappers
  import opened Text
  import opened Sequences
  import opened Records

  const EventNotFound: string := "Event not found"
  const AllFieldsRequired: string := "All fields are required"

  /** The `location` query parameter as Express parses it: a string, or an array or object when repeated or nested. */
  datatype QueryValue = QueryString(s: string) | QueryOther

  /** The location filter in force: `location && typeof location === 'string'`. */
  function LocationFilter(location: Option<QueryValue>): (f: Option<string>)
    ensures f.Some? <==> location.Some? && location.value.QueryString? && location.value.s != ""
    ensures f.Some? ==> f.value == location.value.s
  {
    match location
    case Some(QueryString(s)) => if s != "" then Some(s) else None
    case _ => None
  }

  /** The body of a create request; `maxParticipants` is taken as already numeric. */
  datatype EventFields = EventFields(
    title: Option<string>,
    description: Option<string>,
    location: Option<string>,
    date: Option<string>,
    maxParticipants: Option<int>)

  /** The guard of the create route: every field truthy, so `maxParticipants` may be anything but 0. */
  predicate AllFieldsPresent(f: EventFields): (b: bool)
    ensures b <==> (forall v :: v in [f.title, f.description, f.location, f.date] ==> v.Some? && v.value != "")
                   && f.maxParticipants != None && f.maxParticipants != Some(0)
  {
    !Falsy(f.title) && !Falsy(f.description) && !Falsy(f.location) && !Falsy(f.date)
    && f.maxParticipants.Some? && f.maxParticipants.value != 0
  }

  /** `(e) => e.id === id` */
  function HasId(id: string): Event -> bool
  {
    (e: Event) => e.id == id
  }

  predicate UniqueIds(events: seq<Event>)
  {
    forall i, j :: 0 <= i < j < |events| ==> events[i].id != events[j].id
  }

  /** The create guard refuses only a zero capacity: a negative one passes. */
  lemma NegativeCapacityAccepted(title: string, description: string, location: string, date: string, max: int)
    requires title != "" && description != "" && location != "" && date != ""
    requires max < 0
    ensures AllFieldsPresent(EventFields(Some(title), Some(description), Some(location), Some(date), Some(max)))
  {
  }

  /** The module-level `events` array and the three handlers over it. */
  class EventStore {
    var events: seq<Event>

    /**
     * Ids are unique; every stored event passed the create guard
     * (non-zero capacity) and has nobody signed up yet.
     */
    predicate Valid()
      reads this
    {
      UniqueIds(events)
      && forall i :: 0 <= i < |events| ==> events[i].maxParticipants != 0 && events[i].currentParticipants == 0
    }

    constructor ()
      ensures Valid() && events == []
    {
      events := [];
    }

    /** `GET /`: every event, or those whose location includes the filter, case-insensitively, in stored order. */
    method List(location: Option<QueryValue>) returns (r: Reply<seq<Event>>)
      ensures r.Success? && r.status == Ok
      ensures LocationFilter(location).None? ==> r.body == events
      ensures LocationFilter(location).Some? ==>
                var filter := LocationFilter(location).value;
                && r.body == Filter(events, LocationIncludes(filter))
                && IsSubsequence(r.body, events)
                && (forall i :: 0 <= i < |r.body| ==> Includes(r.body[i].location, filter))
                && (forall i :: 0 <= i < |events| && Includes(events[i].location, filter) ==> events[i] in r.body)
                && (forall e: Event :: multiset(r.body)[e] ==
                      if Includes(e.location, filter) then multiset(events)[e] else 0)
    {
      var filteredEvents := events;
      if location.Some? && location.value.QueryString? && location.value.s != "" {
        filteredEvents := Filter(events, LocationIncludes(location.value.s));
        FilterIsSubsequence(events, LocationIncludes(location.value.s));
        FilterCounts(events, LocationIncludes(location.value.s));
      }
      r := Success(Ok, filteredEvents);
    }

    /** `GET /:id`: the stored event with that id, or 404. */
    method Get(id: string) returns (r: Reply<Event>)
      ensures r.Failure? <==> forall i :: 0 <= i < |events| ==> events[i].id != id
      ensures r.Failure? ==> r == Failure(NotFound, EventNotFound)
      ensures r.Success? ==> r.status == Ok && r.body in events && r.body.id == id
    {
      var event := Find(events, HasId(id));
      if event.None? {
        return Failure(NotFound, EventNotFound);
      }
      r := Success(Ok, event.value);
    }

    /**
     * `POST /` behind the token gate. `freshId` stands for `uuidv4()`, so it is
     * not the id of any stored event.
     */
    method Create(fields: EventFields, freshId: string) returns (r: Reply<Event>)
      requires Valid()
      requires forall i :: 0 <= i < |events| ==> events[i].id != freshId
      modifies this`events
      ensures Valid()
      ensures r.Success? <==> AllFieldsPresent(fields)
      ensures r.Failure? ==> r == Failure(BadRequest, AllFieldsRequired) && events == old(events)
      ensures r.Success? ==>
                && r.status == Created
                && r.body == Event(freshId, fields.title.value, fields.description.value, fields.location.value,
                                   fields.date.value, fields.maxParticipants.value, 0)
                && events == old(events) + [r.body]
    {
      if Falsy(fields.title) || Falsy(fields.description) || Falsy(fields.location)
         || Falsy(fields.date) || fields.maxParticipants.None? || fields.maxParticipants.value == 0
      {
        return Failure(BadRequest, AllFieldsRequired);
      }
      var newEvent := Event(freshId, fields.title.value, fields.description.value, fields.location.value,
                            fields.date.value, fields.maxParticipants.value, 0);
      events := events + [newEvent];
      r := Success(Created, newEvent);
    }
  }

  /**
   * Creating an event and then listing with a filter that differs from its
   * location only in letter case: the new event is created with nobody
   * signed up, and the list contains it.
   */
  method CreateThenListByLocation(store: EventStore, fields: EventFields, freshId: string, query: string)
      returns (created: Reply<Event>, listed: Reply<seq<Event>>)
    requires store.Valid()
    requires forall i :: 0 <= i < |store.events| ==> store.events[i].id != freshId
    requires AllFieldsPresent(fields)
    requires query != "" && Lower(query) == Lower(fields.location.value)
    modifies store
    ensures created.Success? && created.body.currentParticipants == 0
    ensures listed.Success? && created.body in listed.body
  {
    created := store.Create(fields, freshId);
    listed := store.List(Some(QueryString(query)));
    var n := |store.events| - 1;
    assert store.events[n] == created.body;
    IncludesItself(fields.location.value);
    CaseInsensitive(fields.location.value, query);
    CaseInsensitive(fields.location.value, fields.location.value);
  }
}
