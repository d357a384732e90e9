/**
 * The worker's incident handler (`handleIncidentEvent`, `captureEvent`) and
 * the transaction wrapper it runs in (`postgresTransaction`).
 *
 * `Processed` states, table by table, what one incident message leaves in
 * the store once the transaction has committed or rolled back; the methods
 * run the statements one at a time on a `Database` and are proved to end in
 * that state. The lemmas then state the deduplication behaviour on
 * `Processed`.
 */
module ProcessEventHandler {
  import opened Wrappers
  import opened Relational
  import opened PostgresDb

  /** The incident payload fields the worker reads. */
  datatype IncidentPayload = IncidentPayload(
    errorType: string, message: string, stack: string, platform: string, date: int, browser: Option<string>)

  /** A parsed incident message: the application it is for, the SDK that sent it, and the payload. */
  datatype IncidentEnvelope = IncidentEnvelope(appId: Id, sdk: string, payload: IncidentPayload)

  /** Ids the store assigns to the rows it inserts for one message. */
  datatype FreshIds = FreshIds(incidentId: Id, eventId: Id)

  /** Why the handler threw: the message was not valid JSON, or a statement failed. */
  datatype HandlerError = ParseError | StoreError(cause: DbError)

  /** `payload?.browser || undefined`: an empty browser name is falsy and becomes undefined. */
  function Truthy(browser: Option<string>): (r: Option<string>)
    ensures r.Some? <==> browser.Some? && browser.value != ""
    ensures r.Some? ==> r == browser
  {
    if browser == Some("") then None else browser
  }

  /** The incident `captureEvent` builds from the payload: named after the payload's `type`, UNRESOLVED, created now. */
  function Draft(env: IncidentEnvelope, now: int): IncidentDraft {
    IncidentDraft(env.appId, env.payload.errorType, env.payload.message, env.payload.stack,
                  Unresolved, env.sdk, env.payload.platform, now)
  }

  /** The row a new incident gets; its `last_event_at` is the payload's date. */
  function NewIncident(env: IncidentEnvelope, now: int, ids: FreshIds): Incident {
    IncidentRow(Draft(env, now), ids.incidentId, env.payload.date)
  }

  /** The first event of a new incident: dated and labelled as in the payload. */
  function FirstEvent(env: IncidentEnvelope, ids: FreshIds): Event {
    Event(ids.eventId, ids.incidentId, env.appId, env.payload.date, env.payload.browser)
  }

  /** A further event of an existing incident: dated now, with a non-empty browser or none. */
  function RepeatEvent(env: IncidentEnvelope, inc: Incident, now: int, ids: FreshIds): Event {
    Event(ids.eventId, inc.id, env.appId, now, Truthy(env.payload.browser))
  }

  /** The outcome of one message: what the handler returns or throws, and the tables afterwards. */
  datatype Handled = Handled(result: Result<(), DbError>, tables: Tables)

  /**
   * What one incident message does to the store once its transaction is over:
   * a failing statement leaves the tables as they were; an unknown application
   * writes nothing; an absent key creates the incident and its first event; a
   * present key appends an event, unless the event insert yields no row, in
   * which case the transaction is rolled back.
   */
  function Processed(t: Tables, env: IncidentEnvelope, now: int, ids: FreshIds, plan: FaultPlan): (h: Handled)
    ensures h.result.Err? ==> h.tables == t && h.result.error.query in plan.throwing
    ensures FindApplication(t.applications, env.appId).None? ==> h.tables == t
    ensures h.tables.events == t.events || |h.tables.events| == |t.events| + 1
  {
    if SelectApplication in plan.throwing then Handled(Err(QueryFailed(SelectApplication)), t)
    else if FindApplication(t.applications, env.appId).None? then Handled(Ok(()), t)
    else if SelectIncident in plan.throwing then Handled(Err(QueryFailed(SelectIncident)), t)
    else match FindIncident(t.incidents, env.payload.errorType, env.payload.message, env.appId)
      case None => Created(t, env, now, ids, plan)
      case Some(inc) => Appended(t, env, inc, now, ids, plan)
  }

  /** A key no incident carries: the incident and its first event are inserted, or nothing is if a statement fails. */
  function Created(t: Tables, env: IncidentEnvelope, now: int, ids: FreshIds, plan: FaultPlan): (h: Handled)
    ensures h.result.Err? <==> CreateIncidentFailure(plan).Some?
    ensures h.result.Err? ==> h.tables == t && h.result.error.query in plan.throwing
    ensures h.result.Ok? ==> |h.tables.incidents| == |t.incidents| + 1
  {
    if CreateIncidentFailure(plan).Some? then Handled(Err(QueryFailed(CreateIncidentFailure(plan).value)), t)
    else Handled(Ok(()), RecordIncident(t, NewIncident(env, now, ids), FirstEvent(env, ids), !plan.eventRowMissing))
  }

  /** A key incident `inc` carries: one event is appended to it, or nothing is if a statement fails or the insert yields no row. */
  function Appended(t: Tables, env: IncidentEnvelope, inc: Incident, now: int, ids: FreshIds, plan: FaultPlan): (h: Handled)
    ensures h.result.Err? <==> CreateEventFailure(plan).Some?
    ensures h.result.Err? ==> h.tables == t && h.result.error.query in plan.throwing
    ensures |h.tables.incidents| == |t.incidents|
  {
    if CreateEventFailure(plan).Some? then Handled(Err(QueryFailed(CreateEventFailure(plan).value)), t)
    else if plan.eventRowMissing then Handled(Ok(()), t)
    else Handled(Ok(()), RecordEvent(t, RepeatEvent(env, inc, now, ids), true))
  }

  /**
   * The callback `captureEvent` hands to `postgresTransaction`, run on an open
   * transaction. It returns nothing on every path; on a missing event row it
   * issues ROLLBACK itself. A failing statement leaves its earlier writes in
   * place and the transaction open, for the caller to roll back.
   */
  method TransactionBody(db: Database, env: IncidentEnvelope, now: int, ids: FreshIds, plan: FaultPlan)
    returns (r: Result<(), DbError>)
    requires db.inTransaction && db.snapshot == db.State()
    modifies db
    ensures db.snapshot == old(db.snapshot) && db.checkedOut == old(db.checkedOut)
    ensures r == Processed(old(db.State()), env, now, ids, plan).result
    ensures r.Ok? ==> db.State() == Processed(old(db.State()), env, now, ids, plan).tables
    ensures r.Err? ==> db.inTransaction
  {
    var app := db.GetApplicationById(env.appId, plan);
    if app.Err? {
      return Err(app.error);
    }
    if app.value.None? {
      return Ok(());
    }
    var application := app.value.value;
    var incident := db.GetIncident(env.payload.errorType, env.payload.message, env.appId, plan);
    if incident.Err? {
      return Err(incident.error);
    }
    if incident.value.None? {
      var draft := IncidentDraft(application.id, env.payload.errorType, env.payload.message, env.payload.stack,
                                 Unresolved, env.sdk, env.payload.platform, now);
      var created := db.CreateIncident(draft, env.payload.date, env.payload.browser, ids.incidentId, ids.eventId, plan);
      if created.Err? {
        return Err(created.error);
      }
      return Ok(());
    }
    var event := db.CreateEvent(now, incident.value.value, application.id, Truthy(env.payload.browser), ids.eventId, plan);
    if event.Err? {
      return Err(event.error);
    }
    if event.value.None? {
      db.Rollback();
      return Ok(());
    }
    r := Ok(());
  }

  /**
   * `postgresTransaction` with `captureEvent`'s callback: checks out a
   * connection, BEGIN, runs the callback, COMMIT on success or ROLLBACK and
   * rethrow on failure, and releases the connection on every path.
   */
  method PostgresTransaction(db: Database, env: IncidentEnvelope, now: int, ids: FreshIds, plan: FaultPlan)
    returns (r: Result<(), DbError>)
    requires !db.inTransaction
    modifies db
    ensures db.checkedOut == old(db.checkedOut) && !db.inTransaction
    ensures r == Processed(old(db.State()), env, now, ids, plan).result
    ensures db.State() == Processed(old(db.State()), env, now, ids, plan).tables
    ensures r.Err? ==> db.State() == old(db.State())
  {
    db.Connect();
    db.Begin();
    var result := TransactionBody(db, env, now, ids, plan);
    if result.Ok? {
      db.Commit();
    } else {
      db.Rollback();
    }
    db.Release();
    r := result;
  }

  /** `captureEvent`: the whole message runs in one transaction, whose result it returns. */
  method CaptureEvent(env: IncidentEnvelope, db: Database, now: int, ids: FreshIds, plan: FaultPlan)
    returns (r: Result<(), DbError>)
    requires !db.inTransaction
    modifies db
    ensures db.checkedOut == old(db.checkedOut) && !db.inTransaction
    ensures r == Processed(old(db.State()), env, now, ids, plan).result
    ensures db.State() == Processed(old(db.State()), env, now, ids, plan).tables
  {
    r := PostgresTransaction(db, env, now, ids, plan);
  }

  /**
   * `handleIncidentEvent`: a message that does not parse (`None`) is rethrown
   * with no effect; otherwise the handler returns what `captureEvent` returns
   * and rethrows what it throws.
   */
  method HandleIncidentEvent(db: Database, message: Option<IncidentEnvelope>, now: int, ids: FreshIds, plan: FaultPlan)
    returns (r: Result<(), HandlerError>)
    requires !db.inTransaction
    modifies db
    ensures db.checkedOut == old(db.checkedOut) && !db.inTransaction
    ensures message.None? ==> r == Err(ParseError) && db.State() == old(db.State())
    ensures message.Some? ==>
              var h := Processed(old(db.State()), message.value, now, ids, plan);
              && db.State() == h.tables
              && r == (if h.result.Ok? then Ok(()) else Err(StoreError(h.result.error)))
  {
    if message.None? {
      return Err(ParseError);
    }
    var captured := CaptureEvent(message.value, db, now, ids, plan);
    if captured.Err? {
      return Err(StoreError(captured.error));
    }
    r := Ok(());
  }

  // ---------------------------------------------------------------------------
  // Properties of one message

  /** No statement of the handler fails. */
  predicate NoFailure(plan: FaultPlan) {
    SelectApplication !in plan.throwing && SelectIncident !in plan.throwing && CreateIncidentFailure(plan).None?
  }

  /** An application that does not exist gets no incident and no event, and the handler returns normally unless its lookup throws. */
  lemma UnknownApplicationWritesNothing(t: Tables, env: IncidentEnvelope, now: int, ids: FreshIds, plan: FaultPlan)
    requires forall j :: 0 <= j < |t.applications| ==> t.applications[j].id != env.appId
    ensures Processed(t, env, now, ids, plan).tables == t
    ensures Processed(t, env, now, ids, plan).result.Ok? <==> SelectApplication !in plan.throwing
  {
  }

  /**
   * A key no incident carries yields exactly one new incident with that key:
   * UNRESOLVED, created now, named after the payload's type, with the
   * envelope's SDK and the payload's date as its last event; its first event
   * is appended unless the insert yields no row, in which case the incident
   * stays without events (only the other branch rolls back).
   */
  lemma AbsentKeyCreatesIncident(t: Tables, env: IncidentEnvelope, now: int, ids: FreshIds, plan: FaultPlan)
    requires FindApplication(t.applications, env.appId).Some?
    requires CountKey(t.incidents, env.payload.errorType, env.payload.message, env.appId) == 0
    requires !IncidentExists(t.incidents, ids.incidentId)
    requires NoFailure(plan)
    ensures var h := Processed(t, env, now, ids, plan);
            var inc := NewIncident(env, now, ids);
            && h.result.Ok?
            && h.tables.incidents == t.incidents + [inc]
            && inc.status == Unresolved && inc.createdAt == now && inc.lastEventAt == env.payload.date
            && inc.name == env.payload.errorType && inc.sdk == env.sdk && inc.id == ids.incidentId
            && CountKey(h.tables.incidents, env.payload.errorType, env.payload.message, env.appId) == 1
            && h.tables.events == (if plan.eventRowMissing then t.events else t.events + [FirstEvent(env, ids)])
            && FindApplication(h.tables.applications, env.appId).Some?
  {
    var inc := NewIncident(env, now, ids);
    var first := FirstEvent(env, ids);
    assert Processed(t, env, now, ids, plan) == Created(t, env, now, ids, plan);
    assert forall j :: 0 <= j < |t.incidents| ==> t.incidents[j].id != ids.incidentId;
    RecordIncidentFresh(t, inc, first, !plan.eventRowMissing);
    CountKeyAppend(t.incidents, inc, env.payload.errorType, env.payload.message, env.appId);
    StampKeepsApplications(t.applications, env.appId, env.payload.date, env.appId);
    var r := RecordIncident(t, inc, first, !plan.eventRowMissing);
    StampKeepsApplications(r.applications, env.appId, env.payload.date, env.appId);
  }

  /**
   * A key that an incident carries creates no incident: one event dated now,
   * with the payload's non-empty browser, is appended to that incident.
   */
  lemma PresentKeyAppendsEvent(t: Tables, env: IncidentEnvelope, now: int, ids: FreshIds, plan: FaultPlan)
    requires FindApplication(t.applications, env.appId).Some?
    requires FindIncident(t.incidents, env.payload.errorType, env.payload.message, env.appId).Some?
    requires NoFailure(plan) && !plan.eventRowMissing
    ensures var h := Processed(t, env, now, ids, plan);
            var inc := FindIncident(t.incidents, env.payload.errorType, env.payload.message, env.appId).value;
            && h.result.Ok?
            && |h.tables.incidents| == |t.incidents|
            && CountKey(h.tables.incidents, env.payload.errorType, env.payload.message, env.appId)
               == CountKey(t.incidents, env.payload.errorType, env.payload.message, env.appId)
            && h.tables.events == t.events + [Event(ids.eventId, inc.id, env.appId, now, Truthy(env.payload.browser))]
  {
    var inc := FindIncident(t.incidents, env.payload.errorType, env.payload.message, env.appId).value;
    CountKeyStamp(t.incidents, inc.id, now, env.payload.errorType, env.payload.message, env.appId);
  }

  /** A key that an incident carries: that incident and the application take now as their last event time. */
  lemma PresentKeyStampsNow(t: Tables, env: IncidentEnvelope, now: int, ids: FreshIds, plan: FaultPlan)
    requires FindApplication(t.applications, env.appId).Some?
    requires FindIncident(t.incidents, env.payload.errorType, env.payload.message, env.appId).Some?
    requires NoFailure(plan) && !plan.eventRowMissing
    ensures var h := Processed(t, env, now, ids, plan);
            var inc := FindIncident(t.incidents, env.payload.errorType, env.payload.message, env.appId).value;
            && (forall j :: 0 <= j < |h.tables.incidents| && h.tables.incidents[j].id == inc.id ==>
                  h.tables.incidents[j].lastEventAt == now)
            && (forall j :: 0 <= j < |h.tables.applications| && h.tables.applications[j].id == env.appId ==>
                  h.tables.applications[j].lastEventAt == now)
  {
  }

  /** When the event insert for a present key yields no row, the rollback leaves every table as it was. */
  lemma MissingEventRollsBack(t: Tables, env: IncidentEnvelope, now: int, ids: FreshIds, plan: FaultPlan)
    requires FindApplication(t.applications, env.appId).Some?
    requires FindIncident(t.incidents, env.payload.errorType, env.payload.message, env.appId).Some?
    requires NoFailure(plan) && plan.eventRowMissing
    ensures Processed(t, env, now, ids, plan) == Handled(Ok(()), t)
  {
  }

  // ---------------------------------------------------------------------------
  // Store invariants

  /** Handling a message never gives two incidents the same key. */
  lemma ProcessedKeepsUniqueKeys(t: Tables, env: IncidentEnvelope, now: int, ids: FreshIds, plan: FaultPlan)
    requires UniqueKeys(t.incidents)
    ensures UniqueKeys(Processed(t, env, now, ids, plan).tables.incidents)
  {
    var h := Processed(t, env, now, ids, plan);
    if h.tables != t {
      var key := FindIncident(t.incidents, env.payload.errorType, env.payload.message, env.appId);
      if key.None? {
        var inc := NewIncident(env, now, ids);
        AppendKeepsUniqueKeys(t.incidents, inc);
        StampKeepsUniqueKeys(t.incidents + [inc], inc.id, env.payload.date);
      } else {
        StampKeepsUniqueKeys(t.incidents, key.value.id, now);
      }
    }
  }

  /** Handling a message keeps every event attached to an incident that exists. */
  lemma ProcessedKeepsEventsLinked(t: Tables, env: IncidentEnvelope, now: int, ids: FreshIds, plan: FaultPlan)
    requires EventsLinked(t)
    ensures EventsLinked(Processed(t, env, now, ids, plan).tables)
  {
    var h := Processed(t, env, now, ids, plan);
    if h.tables != t {
      var key := FindIncident(t.incidents, env.payload.errorType, env.payload.message, env.appId);
      var grown, id, date;
      if key.None? {
        var inc := NewIncident(env, now, ids);
        grown, id, date := t.incidents + [inc], inc.id, env.payload.date;
        assert grown[|t.incidents|].id == inc.id;
      } else {
        var j :| 0 <= j < |t.incidents| && t.incidents[j] == key.value;
        grown, id, date := t.incidents, key.value.id, now;
        assert IncidentExists(grown, id);
      }
      assert h.tables.incidents == StampIncident(grown, id, date);
      forall k | 0 <= k < |h.tables.events| ensures IncidentExists(h.tables.incidents, h.tables.events[k].incidentId) {
        var x := h.tables.events[k].incidentId;
        if k < |t.events| {
          var j :| 0 <= j < |t.incidents| && t.incidents[j].id == x;
          assert grown[j].id == x;
        } else {
          assert x == id;
        }
        StampKeepsIds(grown, id, date, x);
      }
    }
  }

  // ---------------------------------------------------------------------------
  // Two messages

  /**
   * A message whose key incident `inc` carries, handled on tables whose last
   * event is `first`: it keeps the number of incidents and of incidents with
   * the key, and adds one event for `inc`, dated now, after `first`.
   */
  lemma SecondMessageAppends(
    t1: Tables, env2: IncidentEnvelope, now2: int, ids2: FreshIds, plan: FaultPlan, inc: Incident, before: seq<Event>, first: Event)
    requires FindApplication(t1.applications, env2.appId).Some?
    requires FindIncident(t1.incidents, env2.payload.errorType, env2.payload.message, env2.appId) == Some(inc)
    requires t1.events == before + [first]
    requires plan.throwing == {} && !plan.eventRowMissing
    ensures var t2 := Processed(t1, env2, now2, ids2, plan).tables;
            && |t2.incidents| == |t1.incidents|
            && CountKey(t2.incidents, env2.payload.errorType, env2.payload.message, env2.appId)
               == CountKey(t1.incidents, env2.payload.errorType, env2.payload.message, env2.appId)
            && t2.events == before + [first, Event(ids2.eventId, inc.id, env2.appId, now2, Truthy(env2.payload.browser))]
  {
    PresentKeyAppendsEvent(t1, env2, now2, ids2, plan);
    var second := Event(ids2.eventId, inc.id, env2.appId, now2, Truthy(env2.payload.browser));
    assert (before + [first]) + [second] == before + [first, second];
  }

  /**
   * Two messages with the same key for one application, handled one after
   * the other, leave one incident for the key and two events for it: the
   * first message creates the incident with its first event, the second
   * finds it and appends a second event dated at its own handling time.
   */
  lemma SameKeyTwiceOneIncident(
    t: Tables, env1: IncidentEnvelope, env2: IncidentEnvelope, now1: int, now2: int,
    ids1: FreshIds, ids2: FreshIds, plan: FaultPlan)
    requires env1.appId == env2.appId
    requires env1.payload.errorType == env2.payload.errorType && env1.payload.message == env2.payload.message
    requires FindApplication(t.applications, env1.appId).Some?
    requires CountKey(t.incidents, env1.payload.errorType, env1.payload.message, env1.appId) == 0
    requires !IncidentExists(t.incidents, ids1.incidentId)
    requires plan.throwing == {} && !plan.eventRowMissing
    ensures var t1 := Processed(t, env1, now1, ids1, plan).tables;
            var t2 := Processed(t1, env2, now2, ids2, plan).tables;
            && |t2.incidents| == |t.incidents| + 1
            && CountKey(t2.incidents, env1.payload.errorType, env1.payload.message, env1.appId) == 1
            && t2.events == t.events + [FirstEvent(env1, ids1),
                                        Event(ids2.eventId, ids1.incidentId, env1.appId, now2, Truthy(env2.payload.browser))]
  {
    var name, message, appId := env1.payload.errorType, env1.payload.message, env1.appId;
    var t1 := Processed(t, env1, now1, ids1, plan).tables;
    var inc := NewIncident(env1, now1, ids1);
    AbsentKeyCreatesIncident(t, env1, now1, ids1, plan);
    FindIncidentAppend(t.incidents, inc, name, message, appId);
    CountKeyAppend(t.incidents, inc, name, message, appId);
    SecondMessageAppends(t1, env2, now2, ids2, plan, inc, t.events, FirstEvent(env1, ids1));
  }

  /** After two messages with the same key, the incident's last event time is the second message's handling time. */
  lemma SameKeyTwiceLastEventAt(
    t: Tables, env1: IncidentEnvelope, env2: IncidentEnvelope, now1: int, now2: int,
    ids1: FreshIds, ids2: FreshIds, plan: FaultPlan)
    requires env1.appId == env2.appId
    requires env1.payload.errorType == env2.payload.errorType && env1.payload.message == env2.payload.message
    requires FindApplication(t.applications, env1.appId).Some?
    requires CountKey(t.incidents, env1.payload.errorType, env1.payload.message, env1.appId) == 0
    requires !IncidentExists(t.incidents, ids1.incidentId)
    requires plan.throwing == {} && !plan.eventRowMissing
    ensures var t1 := Processed(t, env1, now1, ids1, plan).tables;
            var t2 := Processed(t1, env2, now2, ids2, plan).tables;
            forall j :: 0 <= j < |t2.incidents| && t2.incidents[j].id == ids1.incidentId ==> t2.incidents[j].lastEventAt == now2
  {
    var t1 := Processed(t, env1, now1, ids1, plan).tables;
    var inc := NewIncident(env1, now1, ids1);
    AbsentKeyCreatesIncident(t, env1, now1, ids1, plan);
    FindIncidentAppend(t.incidents, inc, env1.payload.errorType, env1.payload.message, env1.appId);
    PresentKeyStampsNow(t1, env2, now2, ids2, plan);
  }

  /**
   * When every event is linked to an existing incident, the incident the first
   * of two same-key messages creates ends up with exactly two events.
   */
  lemma SameKeyTwiceTwoEvents(
    t: Tables, env1: IncidentEnvelope, env2: IncidentEnvelope, now1: int, now2: int,
    ids1: FreshIds, ids2: FreshIds, plan: FaultPlan)
    requires env1.appId == env2.appId
    requires env1.payload.errorType == env2.payload.errorType && env1.payload.message == env2.payload.message
    requires FindApplication(t.applications, env1.appId).Some?
    requires CountKey(t.incidents, env1.payload.errorType, env1.payload.message, env1.appId) == 0
    requires !IncidentExists(t.incidents, ids1.incidentId) && EventsLinked(t)
    requires plan.throwing == {} && !plan.eventRowMissing
    ensures var t1 := Processed(t, env1, now1, ids1, plan).tables;
            var t2 := Processed(t1, env2, now2, ids2, plan).tables;
            CountEvents(t2.events, ids1.incidentId) == 2
  {
    var first := FirstEvent(env1, ids1);
    var second := Event(ids2.eventId, ids1.incidentId, env1.appId, now2, Truthy(env2.payload.browser));
    SameKeyTwiceOneIncident(t, env1, env2, now1, now2, ids1, ids2, plan);
    CountEventsNone(t.events, ids1.incidentId);
    CountEventsAppend(t.events, first, ids1.incidentId);
    CountEventsAppend(t.events + [first], second, ids1.incidentId);
    assert t.events + [first, second] == t.events + [first] + [second];
  }
}
