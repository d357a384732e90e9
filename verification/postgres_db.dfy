/**
 * The relational side of the worker's `DatabaseService`: a store holding the
 * `application`, `incident` and `event` tables, the transaction statements
 * (BEGIN, COMMIT, ROLLBACK), the pool checkout counter, and the queries the
 * incident handler issues.
 *
 * A query either succeeds or throws; which ones throw, and whether the event
 * insert comes back without a row, is given by a `FaultPlan`, so that every
 * path of the source is reachable in the model.
 */
module PostgresDb {
  import opened Wrappers
  import opened Relational

  /** The statements the incident handler sends to the store. */
  datatype Query = SelectApplication | SelectIncident | InsertIncident | UpdateApplication | InsertEvent | UpdateIncident

  /**
   * Faults of one run: the statements that throw (each throws at its first
   * use), and whether `INSERT INTO event … RETURNING *` yields no row.
   */
  datatype FaultPlan = FaultPlan(throwing: set<Query>, eventRowMissing: bool)

  /** The error a failed statement raises. */
  datatype DbError = QueryFailed(query: Query)

  /** The fields `createIncident` receives for a new incident; the store assigns its id. */
  datatype IncidentDraft = IncidentDraft(
    applicationId: Id, name: string, message: string, stack: string,
    status: IncidentStatus, sdk: string, platform: string, createdAt: int)

  /** The row `INSERT INTO incident … RETURNING *` produces, `last_event_at` being the event date. */
  function IncidentRow(d: IncidentDraft, id: Id, date: int): (inc: Incident)
    ensures inc.id == id && inc.lastEventAt == date && inc.createdAt == d.createdAt
    ensures HasKey(inc, d.name, d.message, d.applicationId)
    ensures inc.status == d.status && inc.sdk == d.sdk && inc.stack == d.stack && inc.platform == d.platform
  {
    Incident(id, d.applicationId, d.name, d.message, d.stack, d.status, d.sdk, d.platform, d.createdAt, date)
  }

  /** The statement at which `createEvent` fails: it inserts the event, then updates the incident, then the application. */
  function CreateEventFailure(plan: FaultPlan): (q: Option<Query>)
    ensures q.None? <==> InsertEvent !in plan.throwing && UpdateIncident !in plan.throwing && UpdateApplication !in plan.throwing
    ensures q.Some? ==> q.value in plan.throwing && q.value in {InsertEvent, UpdateIncident, UpdateApplication}
    // the first throwing statement, in the order they run, is the one reported
    ensures InsertEvent in plan.throwing ==> q == Some(InsertEvent)
    ensures q == Some(UpdateIncident) ==> InsertEvent !in plan.throwing
    ensures q == Some(UpdateApplication) ==> InsertEvent !in plan.throwing && UpdateIncident !in plan.throwing
  {
    if InsertEvent in plan.throwing then Some(InsertEvent)
    else if UpdateIncident in plan.throwing then Some(UpdateIncident)
    else if UpdateApplication in plan.throwing then Some(UpdateApplication)
    else None
  }

  /**
   * The statement at which `createIncident` fails: it inserts the incident,
   * updates the application, then runs `createEvent`.
   */
  function CreateIncidentFailure(plan: FaultPlan): (q: Option<Query>)
    ensures q.None? <==> InsertIncident !in plan.throwing && CreateEventFailure(plan).None?
    ensures q.Some? ==> q.value in plan.throwing && q.value in {InsertIncident, UpdateApplication, InsertEvent, UpdateIncident}
    // the incident insert runs first and the application update second
    ensures InsertIncident in plan.throwing ==> q == Some(InsertIncident)
    ensures InsertIncident !in plan.throwing && UpdateApplication in plan.throwing ==> q == Some(UpdateApplication)
    ensures InsertIncident !in plan.throwing && UpdateApplication !in plan.throwing ==> q == CreateEventFailure(plan)
  {
    if InsertIncident in plan.throwing then Some(InsertIncident)
    else if UpdateApplication in plan.throwing then Some(UpdateApplication)
    else CreateEventFailure(plan)
  }

  /** The store, with its transaction state and the pool's checkout count. */
  class Database {
    var applications: seq<Application>
    var incidents: seq<Incident>
    var events: seq<Event>
    /** A transaction is open. */
    var inTransaction: bool
    /** The tables as they were at the last BEGIN. */
    var snapshot: Tables
    /** Pool connections checked out and not yet released. */
    var checkedOut: nat

    /** The three tables. */
    function State(): (t: Tables)
      reads this
      ensures t.applications == applications && t.incidents == incidents && t.events == events
    {
      Tables(applications, incidents, events)
    }

    constructor (t: Tables)
      ensures State() == t && !inTransaction && checkedOut == 0
    {
      applications := t.applications;
      incidents := t.incidents;
      events := t.events;
      inTransaction := false;
      snapshot := t;
      checkedOut := 0;
    }

    /** `pool.connect()`. */
    method Connect()
      modifies this`checkedOut
      ensures checkedOut == old(checkedOut) + 1
    {
      checkedOut := checkedOut + 1;
    }

    /** `client.release()`. */
    method Release()
      requires checkedOut > 0
      modifies this`checkedOut
      ensures checkedOut == old(checkedOut) - 1
    {
      checkedOut := checkedOut - 1;
    }

    /** `BEGIN`: opens a transaction and remembers the tables; inside a transaction it does nothing. */
    method Begin()
      modifies this`inTransaction, this`snapshot
      ensures inTransaction
      ensures snapshot == if old(inTransaction) then old(snapshot) else State()
    {
      if !inTransaction {
        snapshot := State();
        inTransaction := true;
      }
    }

    /** `COMMIT`: keeps the tables as they are and closes the transaction, if any. */
    method Commit()
      modifies this`inTransaction
      ensures !inTransaction
    {
      inTransaction := false;
    }

    /** `ROLLBACK`: puts back the tables of the last BEGIN; outside a transaction it changes nothing. */
    method Rollback()
      modifies this`inTransaction, this`applications, this`incidents, this`events
      ensures !inTransaction
      ensures State() == if old(inTransaction) then snapshot else old(State())
    {
      if inTransaction {
        applications := snapshot.applications;
        incidents := snapshot.incidents;
        events := snapshot.events;
      }
      inTransaction := false;
    }

    /** `getApplicationById`: the first application with this id, if any. */
    method GetApplicationById(id: Id, plan: FaultPlan) returns (r: Result<Option<Application>, DbError>)
      ensures r.Err? <==> SelectApplication in plan.throwing
      ensures r.Err? ==> r.error == QueryFailed(SelectApplication)
      ensures r.Ok? && r.value.Some? ==> r.value.value in applications && r.value.value.id == id
      ensures r.Ok? ==> (r.value.None? <==> forall j :: 0 <= j < |applications| ==> applications[j].id != id)
      ensures r.Ok? ==> r.value == FindApplication(applications, id)
    {
      if SelectApplication in plan.throwing {
        return Err(QueryFailed(SelectApplication));
      }
      r := Ok(FindApplication(applications, id));
    }

    /** `getIncident`: the first incident whose name, message and application all match, if any. */
    method GetIncident(name: string, message: string, appId: Id, plan: FaultPlan) returns (r: Result<Option<Incident>, DbError>)
      ensures r.Err? <==> SelectIncident in plan.throwing
      ensures r.Err? ==> r.error == QueryFailed(SelectIncident)
      ensures r.Ok? && r.value.Some? ==> r.value.value in incidents && HasKey(r.value.value, name, message, appId)
      ensures r.Ok? ==> (r.value.None? <==> forall j :: 0 <= j < |incidents| ==> !HasKey(incidents[j], name, message, appId))
      ensures r.Ok? ==> r.value == FindIncident(incidents, name, message, appId)
    {
      if SelectIncident in plan.throwing {
        return Err(QueryFailed(SelectIncident));
      }
      r := Ok(FindIncident(incidents, name, message, appId));
    }

    /** `updateApplicationLastEventAt`: sets `last_event_at` of the application with this id. */
    method UpdateApplicationLastEventAt(appId: Id, date: int, plan: FaultPlan) returns (r: Result<(), DbError>)
      modifies this`applications
      ensures r.Err? <==> UpdateApplication in plan.throwing
      ensures r.Err? ==> r.error == QueryFailed(UpdateApplication) && applications == old(applications)
      ensures r.Ok? ==> applications == StampApplication(old(applications), appId, date)
    {
      if UpdateApplication in plan.throwing {
        return Err(QueryFailed(UpdateApplication));
      }
      applications := StampApplication(applications, appId, date);
      r := Ok(());
    }

    /**
     * `createEvent`: inserts the event, then sets the incident's and the
     * application's `last_event_at` to its date; returns the inserted row, or
     * nothing when the insert yields none. A failing statement leaves the
     * writes before it in place.
     */
    method CreateEvent(date: int, incident: Incident, appId: Id, browser: Option<string>, eventId: Id, plan: FaultPlan)
      returns (r: Result<Option<Event>, DbError>)
      modifies this`applications, this`incidents, this`events
      ensures var e := Event(eventId, incident.id, appId, date, browser);
              var added := if plan.eventRowMissing then old(events) else old(events) + [e];
              && (CreateEventFailure(plan).Some? ==> r == Err(QueryFailed(CreateEventFailure(plan).value)))
              && (CreateEventFailure(plan) == Some(InsertEvent) ==> State() == old(State()))
              && (CreateEventFailure(plan) == Some(UpdateIncident) ==> State() == old(State()).(events := added))
              && (CreateEventFailure(plan) == Some(UpdateApplication) ==>
                    State() == Tables(old(applications), StampIncident(old(incidents), incident.id, date), added))
              && (CreateEventFailure(plan).None? ==>
                    && r == Ok(if plan.eventRowMissing then None else Some(e))
                    && State() == RecordEvent(old(State()), e, !plan.eventRowMissing))
    {
      if InsertEvent in plan.throwing {
        return Err(QueryFailed(InsertEvent));
      }
      var e := Event(eventId, incident.id, appId, date, browser);
      if !plan.eventRowMissing {
        events := events + [e];
      }
      if UpdateIncident in plan.throwing {
        return Err(QueryFailed(UpdateIncident));
      }
      incidents := StampIncident(incidents, incident.id, date);
      var u := UpdateApplicationLastEventAt(appId, date, plan);
      if u.Err? {
        return Err(u.error);
      }
      r := Ok(if plan.eventRowMissing then None else Some(e));
    }

    /**
     * `createIncident`: inserts the incident with `last_event_at` set to the
     * event date, sets the application's `last_event_at`, then creates the
     * first event (whose result it does not look at) and returns the inserted
     * incident.
     */
    method CreateIncident(draft: IncidentDraft, date: int, browser: Option<string>, incidentId: Id, eventId: Id, plan: FaultPlan)
      returns (r: Result<Incident, DbError>)
      modifies this`applications, this`incidents, this`events
      ensures var inc := IncidentRow(draft, incidentId, date);
              var first := Event(eventId, incidentId, draft.applicationId, date, browser);
              var added := if plan.eventRowMissing then old(events) else old(events) + [first];
              var stamped := StampApplication(old(applications), draft.applicationId, date);
              && (CreateIncidentFailure(plan).Some? ==> r == Err(QueryFailed(CreateIncidentFailure(plan).value)))
              && (CreateIncidentFailure(plan) == Some(InsertIncident) ==> State() == old(State()))
              && (CreateIncidentFailure(plan) == Some(UpdateApplication) ==>
                    State() == old(State()).(incidents := old(incidents) + [inc]))
              && (CreateIncidentFailure(plan) == Some(InsertEvent) ==>
                    State() == Tables(stamped, old(incidents) + [inc], old(events)))
              && (CreateIncidentFailure(plan) == Some(UpdateIncident) ==>
                    State() == Tables(stamped, old(incidents) + [inc], added))
              && (CreateIncidentFailure(plan).None? ==>
                    r == Ok(inc) && State() == RecordIncident(old(State()), inc, first, !plan.eventRowMissing))
    {
      if InsertIncident in plan.throwing {
        return Err(QueryFailed(InsertIncident));
      }
      var inc := IncidentRow(draft, incidentId, date);
      incidents := incidents + [inc];
      var u := UpdateApplicationLastEventAt(draft.applicationId, date, plan);
      if u.Err? {
        return Err(u.error);
      }
      var e := CreateEvent(date, inc, draft.applicationId, browser, eventId, plan);
      if e.Err? {
        return Err(e.error);
      }
      r := Ok(inc);
    }
  }
}
