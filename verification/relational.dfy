/**
 * Rows of the relay worker's relational store (`application`, `incident`,
 * `event`) and the pure effect of each statement the worker runs on them.
 * A table is a sequence of rows; the statements are functions from tables to
 * tables, so that the store class and the handlers can be specified by them.
 */
module Relational {
  import opened Wrappers

  type Id = string

  /** A row of `application`, as far as the worker reads and writes it. */
  datatype Application = Application(id: Id, lastEventAt: int)

  /** Incident statuses; the worker only ever writes `Unresolved`, the rest are set elsewhere. */
  datatype IncidentStatus = Unresolved | OtherStatus(status: string)

  /** A row of `incident`. */
  datatype Incident = Incident(
    id: Id, applicationId: Id, name: string, message: string, stack: string,
    status: IncidentStatus, sdk: string, platform: string, createdAt: int, lastEventAt: int)

  /** A row of `event`: one occurrence of an incident. */
  datatype Event = Event(id: Id, incidentId: Id, applicationId: Id, date: int, browser: Option<string>)

  /** The three tables together. */
  datatype Tables = Tables(applications: seq<Application>, incidents: seq<Incident>, events: seq<Event>)

  /** `SELECT * FROM application WHERE id = …`, first row. */
  function FindApplication(apps: seq<Application>, id: Id): (r: Option<Application>)
    ensures r.Some? ==> r.value in apps && r.value.id == id
    ensures r.None? <==> forall j :: 0 <= j < |apps| ==> apps[j].id != id
    decreases |apps|
  {
    if apps == [] then None
    else if apps[0].id == id then Some(apps[0])
    else FindApplication(apps[1..], id)
  }

  /** The deduplication key of an incident: name, message and application. */
  predicate HasKey(inc: Incident, name: string, message: string, appId: Id) {
    inc.name == name && inc.message == message && inc.applicationId == appId
  }

  /** `SELECT * FROM incident WHERE name = $1 AND message = $2 AND application_id = $3`, first row. */
  function FindIncident(incidents: seq<Incident>, name: string, message: string, appId: Id): (r: Option<Incident>)
    ensures r.Some? ==> r.value in incidents && HasKey(r.value, name, message, appId)
    ensures r.None? <==> forall j :: 0 <= j < |incidents| ==> !HasKey(incidents[j], name, message, appId)
    decreases |incidents|
  {
    if incidents == [] then None
    else if HasKey(incidents[0], name, message, appId) then Some(incidents[0])
    else FindIncident(incidents[1..], name, message, appId)
  }

  /** `UPDATE application SET last_event_at = date WHERE id = …`. */
  function StampApplication(apps: seq<Application>, id: Id, date: int): (r: seq<Application>)
    ensures |r| == |apps|
    ensures forall j :: 0 <= j < |r| ==> r[j].id == apps[j].id
    ensures forall j :: 0 <= j < |r| ==> r[j].lastEventAt == if apps[j].id == id then date else apps[j].lastEventAt
  {
    seq(|apps|, j requires 0 <= j < |apps| => if apps[j].id == id then apps[j].(lastEventAt := date) else apps[j])
  }

  /** `UPDATE incident SET last_event_at = date WHERE id = …`. */
  function StampIncident(incidents: seq<Incident>, id: Id, date: int): (r: seq<Incident>)
    ensures |r| == |incidents|
    ensures forall j :: 0 <= j < |r| ==> r[j] == incidents[j].(lastEventAt := r[j].lastEventAt)
    ensures forall j :: 0 <= j < |r| ==> r[j].lastEventAt == if incidents[j].id == id then date else incidents[j].lastEventAt
  {
    seq(|incidents|, j requires 0 <= j < |incidents| =>
      if incidents[j].id == id then incidents[j].(lastEventAt := date) else incidents[j])
  }

  /** Stamping twice with the same date is stamping once. */
  lemma StampApplicationTwice(apps: seq<Application>, id: Id, date: int)
    ensures StampApplication(StampApplication(apps, id, date), id, date) == StampApplication(apps, id, date)
  {
    var once := StampApplication(apps, id, date);
    var twice := StampApplication(once, id, date);
    forall j | 0 <= j < |apps| ensures twice[j] == once[j] {
      assert twice[j].id == once[j].id && twice[j].lastEventAt == once[j].lastEventAt;
    }
  }

  /**
   * The effect of `createEvent`: the event row is appended (unless its insert
   * returned no row), and the incident and the application it names get its
   * date as their `last_event_at`.
   */
  function RecordEvent(t: Tables, e: Event, inserted: bool): (r: Tables)
    ensures r.events == if inserted then t.events + [e] else t.events
    ensures |r.incidents| == |t.incidents| && |r.applications| == |t.applications|
  {
    Tables(StampApplication(t.applications, e.applicationId, e.date),
           StampIncident(t.incidents, e.incidentId, e.date),
           if inserted then t.events + [e] else t.events)
  }

  /** The effect of `createIncident`: insert the incident, stamp its application, then record its first event. */
  function RecordIncident(t: Tables, inc: Incident, first: Event, inserted: bool): (r: Tables)
    ensures r.events == if inserted then t.events + [first] else t.events
    ensures |r.incidents| == |t.incidents| + 1
  {
    RecordEvent(Tables(StampApplication(t.applications, inc.applicationId, first.date), t.incidents + [inc], t.events),
                first, inserted)
  }

  // ---------------------------------------------------------------------------
  // Store-wide properties

  /** Incidents `a` and `b` share their deduplication key. */
  predicate SameKey(a: Incident, b: Incident) {
    HasKey(b, a.name, a.message, a.applicationId)
  }

  /** No two incidents share a deduplication key. */
  ghost predicate UniqueKeys(incidents: seq<Incident>) {
    forall a, b :: 0 <= a < b < |incidents| ==> !SameKey(incidents[a], incidents[b])
  }

  /** Some incident has this id. */
  predicate IncidentExists(incidents: seq<Incident>, id: Id) {
    exists j :: 0 <= j < |incidents| && incidents[j].id == id
  }

  /** Every event belongs to an incident that exists. */
  ghost predicate EventsLinked(t: Tables) {
    forall k :: 0 <= k < |t.events| ==> IncidentExists(t.incidents, t.events[k].incidentId)
  }

  /** Number of incidents with the given key. */
  function CountKey(incidents: seq<Incident>, name: string, message: string, appId: Id): (n: nat)
    ensures n <= |incidents|
    ensures n == 0 <==> FindIncident(incidents, name, message, appId).None?
  {
    if incidents == [] then 0
    else (if HasKey(incidents[0], name, message, appId) then 1 else 0) + CountKey(incidents[1..], name, message, appId)
  }

  /** Number of events of the given incident. */
  function CountEvents(events: seq<Event>, incidentId: Id): (n: nat)
    ensures n <= |events|
  {
    if events == [] then 0
    else CountEvents(events[..|events| - 1], incidentId) + (if events[|events| - 1].incidentId == incidentId then 1 else 0)
  }

  /** Appending an event adds one to its incident's count and nothing to the others. */
  lemma CountEventsAppend(events: seq<Event>, e: Event, incidentId: Id)
    ensures CountEvents(events + [e], incidentId) ==
            CountEvents(events, incidentId) + (if e.incidentId == incidentId then 1 else 0)
  {
    assert (events + [e])[..|events + [e]| - 1] == events;
  }

  /** An incident no event points to has no events. */
  lemma {:induction false} CountEventsNone(events: seq<Event>, incidentId: Id)
    requires forall k :: 0 <= k < |events| ==> events[k].incidentId != incidentId
    ensures CountEvents(events, incidentId) == 0
    decreases |events|
  {
    if events != [] {
      CountEventsNone(events[..|events| - 1], incidentId);
    }
  }

  /** Counting by key ignores `last_event_at`, so stamping incidents keeps every count. */
  lemma {:induction false} CountKeyStamp(incidents: seq<Incident>, id: Id, date: int, name: string, message: string, appId: Id)
    ensures CountKey(StampIncident(incidents, id, date), name, message, appId) == CountKey(incidents, name, message, appId)
    decreases |incidents|
  {
    if incidents != [] {
      var stamped := StampIncident(incidents, id, date);
      assert stamped[1..] == StampIncident(incidents[1..], id, date);
      CountKeyStamp(incidents[1..], id, date, name, message, appId);
    }
  }

  /** Counting over an appended row. */
  lemma {:induction false} CountKeyAppend(incidents: seq<Incident>, inc: Incident, name: string, message: string, appId: Id)
    ensures CountKey(incidents + [inc], name, message, appId) ==
            CountKey(incidents, name, message, appId) + (if HasKey(inc, name, message, appId) then 1 else 0)
    decreases |incidents|
  {
    if incidents == [] {
      assert [inc][1..] == [];
    } else {
      assert (incidents + [inc])[1..] == incidents[1..] + [inc];
      CountKeyAppend(incidents[1..], inc, name, message, appId);
    }
  }

  /** Stamping keeps keys unique. */
  lemma StampKeepsUniqueKeys(incidents: seq<Incident>, id: Id, date: int)
    requires UniqueKeys(incidents)
    ensures UniqueKeys(StampIncident(incidents, id, date))
  {
    var r := StampIncident(incidents, id, date);
    forall a, b | 0 <= a < b < |r| ensures !SameKey(r[a], r[b]) {
      assert !SameKey(incidents[a], incidents[b]);
    }
  }

  /** Appending an incident whose key no row carries keeps keys unique. */
  lemma AppendKeepsUniqueKeys(incidents: seq<Incident>, inc: Incident)
    requires UniqueKeys(incidents)
    requires FindIncident(incidents, inc.name, inc.message, inc.applicationId).None?
    ensures UniqueKeys(incidents + [inc])
  {
    var r := incidents + [inc];
    forall a, b | 0 <= a < b < |r| ensures !SameKey(r[a], r[b]) {
      if b == |incidents| {
        assert !HasKey(incidents[a], inc.name, inc.message, inc.applicationId);
      }
    }
  }

  /** Looking up a key absent from a table, after appending a row that carries it, finds that row. */
  lemma {:induction false} FindIncidentAppend(incidents: seq<Incident>, inc: Incident, name: string, message: string, appId: Id)
    requires FindIncident(incidents, name, message, appId).None?
    requires HasKey(inc, name, message, appId)
    ensures FindIncident(incidents + [inc], name, message, appId) == Some(inc)
    decreases |incidents|
  {
    if incidents == [] {
      assert [inc][0] == inc;
    } else {
      assert (incidents + [inc])[1..] == incidents[1..] + [inc];
      FindIncidentAppend(incidents[1..], inc, name, message, appId);
    }
  }

  /** Stamping rows that already carry the date changes nothing. */
  lemma StampIncidentNoop(incidents: seq<Incident>, id: Id, date: int)
    requires forall j :: 0 <= j < |incidents| && incidents[j].id == id ==> incidents[j].lastEventAt == date
    ensures StampIncident(incidents, id, date) == incidents
  {
    var r := StampIncident(incidents, id, date);
    forall j | 0 <= j < |incidents| ensures r[j] == incidents[j] {
      assert r[j] == incidents[j].(lastEventAt := r[j].lastEventAt);
    }
  }

  /**
   * Recording a new incident under an id no row carries, with a first event of
   * its own date, appends exactly that row and stamps its application once.
   */
  lemma RecordIncidentFresh(t: Tables, inc: Incident, first: Event, inserted: bool)
    requires forall j :: 0 <= j < |t.incidents| ==> t.incidents[j].id != inc.id
    requires first.incidentId == inc.id && first.date == inc.lastEventAt && first.applicationId == inc.applicationId
    ensures RecordIncident(t, inc, first, inserted).incidents == t.incidents + [inc]
    ensures RecordIncident(t, inc, first, inserted).applications == StampApplication(t.applications, inc.applicationId, first.date)
  {
    StampIncidentNoop(t.incidents + [inc], inc.id, first.date);
    StampApplicationTwice(t.applications, inc.applicationId, first.date);
  }

  /** Stamping keeps every application findable by its id. */
  lemma StampKeepsApplications(apps: seq<Application>, id: Id, date: int, x: Id)
    ensures FindApplication(StampApplication(apps, id, date), x).Some? <==> FindApplication(apps, x).Some?
  {
    var r := StampApplication(apps, id, date);
    if FindApplication(apps, x).Some? {
      var j :| 0 <= j < |apps| && apps[j].id == x;
      assert r[j].id == x;
    }
    if FindApplication(r, x).Some? {
      var j :| 0 <= j < |r| && r[j].id == x;
      assert apps[j].id == x;
    }
  }

  /** A stamped table holds the same incident ids. */
  lemma StampKeepsIds(incidents: seq<Incident>, id: Id, date: int, x: Id)
    ensures IncidentExists(StampIncident(incidents, id, date), x) <==> IncidentExists(incidents, x)
  {
    var r := StampIncident(incidents, id, date);
    if IncidentExists(incidents, x) {
      var j :| 0 <= j < |incidents| && incidents[j].id == x;
      assert r[j].id == x;
    }
    if IncidentExists(r, x) {
      var j :| 0 <= j < |r| && r[j].id == x;
      assert incidents[j].id == x;
    }
  }
}
