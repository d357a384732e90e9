# Traceo event relay — a Dafny model

Traceo's relay takes events from instrumented applications and stores them. This
project models its core:

- **Capture service** (`lib/src/api/capture/capture.service.ts`). It checks an
  incoming request in a fixed order: demo switch, API key present, key shape,
  SDK name present and known, project lookup by key. It then marks the project
  integrated and publishes one envelope `{sdk, projectId, payload}` to the topic
  of the request's route. Modules: `CaptureKey` (the key shape) and `Capture`
  (the rest). `Process` is a function from the configuration, the request and
  the project table to the response, the new project table and the list of
  messages published.
- **Incident handler** of the relay worker
  (`relay-worker/src/handlers/process-event-handler.ts` with
  `relay-worker/src/db/database.ts`). It finds or creates the incident for the
  key (error type, message, application), appends an event, and updates
  `last_event_at`. All of this runs in one transaction, with an explicit
  ROLLBACK when the event insert returns no row. Modules:
  - `Relational`: rows, and the pure effect of each statement;
  - `PostgresDb`: the store as a class `Database` with BEGIN/COMMIT/ROLLBACK, the
    pool checkout counter and the queries;
  - `ProcessEventHandler`: the callback, `postgresTransaction` at its call site,
    `captureEvent`, `handleIncidentEvent`, and the properties of one and of two
    messages.

  The function `Processed` gives the tables and the result a message leaves
  behind once its transaction is over. The methods are proved against it.
- **Columnar writer and logs handler** (`insertClickhouseLogs`,
  `insertClickhouseMetrics`, `process-logs-handler.ts`). Each input record
  becomes one row with a fresh id, one shared receive time and the application
  id, in one bulk append. Modules: `Columnar` (a class `ClickhouseClient` owning
  the two tables) and `ProcessLogsHandler`.
- **Web-vitals binning** (`lib/src/api/performance/performance.service.ts`).
  The samples are sorted by value in place (an array). They are grouped by name
  into an insertion-ordered dictionary. Each group is counted into fixed-width
  bins, from 0 up to a ceiling, by a `while` loop. Module: `Performance`.

The following inputs are parameters of the model:
- the clock (`dayjs().unix()`), as `now`;
- `randomUUID()`, as lists of ids required to be distinct and unused;
- the demo environment variable and the SDK enumeration, as a `Config`;
- which statements of the incident handler throw, as a `FaultPlan`;
- which of the capture service's project lookup, flag update and broker send
  throw, as `Faults`;
- a JSON parse failure, as an `Option` that is `None`;
- the property names a plain object `{}` inherits from `Object.prototype`
  (`constructor`, `__proto__`, `toString`, …), as a set of strings.

Facts of the code that the model keeps:
- A new incident's `last_event_at` is the payload's `date`, not the handling
  time (`database.ts:86,121`).
- When the first event of a new incident comes back without a row, nothing is
  rolled back: `createIncident` ignores `createEvent`'s result, so the incident
  stays without events. Only the existing-incident path checks for a missing
  row and issues ROLLBACK (`process-event-handler.ts:59,75-82`).
- The event appended to an existing incident is dated at handling time, and its
  browser is the payload's browser when non-empty. The first event of a new
  incident carries the payload's date and its browser as given.
- The integration flag update is awaited inside `retrieveProjectId`, outside
  any `try` (`capture.service.ts:84,126-130`). When it throws, `process`
  rejects: nothing is published and the flag stays unset. A throwing project
  lookup (`capture.service.ts:117-119`) does the same before any write. The
  first three characters of a key are never checked, so a quote there is
  interpolated into the lookup's SQL.

## Model

| member | source | states |
|---|---|---|
| CaptureKey.UuidPatternPositions | lib/src/api/capture/capture.service.ts:111-112 | the regular expression spans 36 characters: dashes at 8, 13, 18 and 23, the version class at 14, the variant class at 19, hex digits elsewhere |
| CaptureKey.MatchesIffLayout | lib/src/api/capture/capture.service.ts:111-112 | the anchored, case-insensitive pattern accepts exactly the strings with the 8-4-4-4-12 hex layout, version digit 1–5 and variant digit 8, 9, a or b |
| CaptureKey.IsValidApiKey | lib/src/api/capture/capture.service.ts:110-114 | a key is accepted exactly when it is 39 characters long and its last 36 have the UUID layout; a key shorter than three characters is refused |
| CaptureKey.PrefixedUuidAccepted | lib/src/api/capture/capture.service.ts:110-114 | any three characters followed by a well-formed UUID are accepted; the prefix is never inspected |
| Capture.RouteTopic | lib/src/api/capture/capture.service.ts:15-21 | the route can be read back from its topic, so no two routes publish to the same topic |
| Capture.RouteTopicBijective | lib/src/api/capture/capture.service.ts:7-21 | every route has one topic, and no two routes share a topic |
| Capture.FirstWithKey | lib/src/api/capture/capture.service.ts:117-124 | the row `project[0]` of the lookup: the first row with the key, or none exactly when no row has it |
| Capture.FirstWithKeyIgnoresFlags | lib/src/api/capture/capture.service.ts:117-119 | the lookup depends only on the keys, so changing integration flags never moves it |
| Capture.MarkIntegrated | lib/src/api/capture/capture.service.ts:127-129 | the rows with the id get the flag set; ids, keys and all other flags are kept |
| Capture.RetrieveProjectId | lib/src/api/capture/capture.service.ts:116-133 | throws exactly when the lookup throws, or when the update throws for a found project not yet integrated; the lookup's failure is reported as such. Otherwise: no id exactly when no project has the key, and then no write; else the first such project's id, flagged integrated afterwards. An integrated project is not written, and a project not yet integrated is the only one whose flag changes; flags are only ever raised |
| Capture.RetrieveProjectIdIdempotent | lib/src/api/capture/capture.service.ts:124-132 | a second lookup with the same key finds the same id and leaves the table as the first one left it, whether or not its update statement would throw |
| Capture.Validate | lib/src/api/capture/capture.service.ts:53-80 | passes exactly when not in demo mode, the key is present and well shaped, and the SDK name is present and known; any failure is one of the five early errors |
| Capture.Process | lib/src/api/capture/capture.service.ts:50-108 | anything but success publishes nothing; an early error or a thrown lookup or update writes no row; the table is either unchanged or has exactly the first project with the key marked integrated. Once the headers pass, the lookup decides: the request is rejected exactly when the lookup throws, with the lookup's own error; otherwise the table is the one the lookup left (so a flag set before an empty id or a failed send stays set), an empty id gives the unknown-key error and a throwing send gives the send error. Success implies validation passed, neither the lookup nor the send threw, a project holds the key with a non-empty id, exactly one envelope (sdk, that id, payload) went to the route's topic, and the project is integrated |
| Capture.DemoRejectsEverything | lib/src/api/capture/capture.service.ts:53-57 | in demo mode every request is refused, with no write and no publish |
| Capture.MissingKeyRejected | lib/src/api/capture/capture.service.ts:59-63 | a missing or empty key is refused, with no lookup, no flag update and no publish |
| Capture.MalformedKeyRejected | lib/src/api/capture/capture.service.ts:64-68 | a present key that is not 39 characters long with a UUID after the prefix is refused with no side effect |
| Capture.SdkCheckedAfterKey | lib/src/api/capture/capture.service.ts:71-80 | once the key has passed, a missing or unknown SDK name is refused with no side effect |
| Capture.UnknownKeyRejected | lib/src/api/capture/capture.service.ts:84-87 | a well-formed key that no project holds is refused, unless the lookup throws; nothing is published and no row is written |
| Capture.LookupFailureRejects | lib/src/api/capture/capture.service.ts:84-130 | once the headers pass, a throwing lookup, or a throwing flag update for a project not yet integrated, rejects the request with nothing published and no flag set |
| Capture.AcceptedRequestPublishes | lib/src/api/capture/capture.service.ts:84-103 | a request that passes every check, for a key held first by project i with a non-empty id, whose lookup, needed update and send do not throw, succeeds. It publishes exactly the envelope (sdk, project i's id, payload) on the route's topic; the table is unchanged when project i was integrated, and otherwise only project i's flag is set |
| Capture.ProcessIdempotentOnProjects | lib/src/api/capture/capture.service.ts:84-87 | repeating a request, with the same statements failing, on the table the first call left gives the same response, table and message |
| Relational.FindApplication | relay-worker/src/db/database.ts:69-72 | the row found has the id; none exactly when no application has it |
| Relational.FindIncident | relay-worker/src/db/database.ts:74-77 | the row found carries the name, message and application id; none exactly when no row matches all three |
| Relational.StampApplication | relay-worker/src/db/database.ts:79-81 | the applications with the id get the date as last event time; every other row and every id is unchanged |
| Relational.StampIncident | relay-worker/src/db/database.ts:155 | the incidents with the id get the date as last event time; every other field of every row is unchanged |
| Relational.StampApplicationTwice | relay-worker/src/db/database.ts:126 | the second application update with the same date, done by the first event, changes nothing |
| Relational.RecordEvent | relay-worker/src/db/database.ts:139-159 | the event is appended exactly when the insert returned a row; no row is added to or removed from the other tables |
| Relational.RecordIncident | relay-worker/src/db/database.ts:98-136 | exactly one incident is added, and its first event is appended exactly when inserted |
| Relational.CountKey | relay-worker/src/db/database.ts:74-77 | the number of incidents with a key is zero exactly when the lookup finds none |
| Relational.CountEventsAppend | relay-worker/src/db/database.ts:140-153 | appending an event adds one to its incident's count and nothing to the others |
| Relational.CountEventsNone | relay-worker/src/db/database.ts:140-153 | an incident no event points to has no events |
| Relational.CountKeyStamp | relay-worker/src/db/database.ts:155 | stamping incidents keeps the number of incidents for every key |
| Relational.CountKeyAppend | relay-worker/src/db/database.ts:98-124 | inserting an incident adds one to its own key's count and nothing to the others |
| Relational.StampKeepsUniqueKeys | relay-worker/src/db/database.ts:155 | stamping keeps keys unique |
| Relational.AppendKeepsUniqueKeys | relay-worker/src/db/database.ts:98-124 | inserting an incident whose key no row carries keeps keys unique |
| Relational.FindIncidentAppend | relay-worker/src/db/database.ts:74-77 | after inserting an incident under an absent key, the lookup finds that incident |
| Relational.StampIncidentNoop | relay-worker/src/db/database.ts:121 | stamping rows that already carry the date changes nothing |
| Relational.RecordIncidentFresh | relay-worker/src/db/database.ts:98-136 | a new incident with a fresh id whose first event has its own date is appended unchanged, and its application is stamped once |
| Relational.StampKeepsApplications | relay-worker/src/db/database.ts:79-81 | stamping keeps every application findable by its id |
| Relational.StampKeepsIds | relay-worker/src/db/database.ts:155 | stamping keeps the set of incident ids |
| PostgresDb.CreateEventFailure | relay-worker/src/db/database.ts:139-159 | `createEvent` fails exactly when one of its statements throws, at the first of them in the order event insert, incident update, application update: a throwing event insert is always the one reported, and an application update only when the two before it do not throw |
| PostgresDb.CreateIncidentFailure | relay-worker/src/db/database.ts:98-134 | `createIncident` fails exactly when one of its statements throws: a throwing incident insert is always the one reported, then the application update, and only when neither throws does `createEvent`'s failure decide |
| PostgresDb.Database.Connect | relay-worker/src/db/database.ts:50 | one more connection is checked out |
| PostgresDb.Database.Release | relay-worker/src/db/database.ts:64-66 | one connection is given back |
| PostgresDb.Database.Begin | relay-worker/src/db/database.ts:52 | a transaction is open, and the snapshot holds the tables at BEGIN |
| PostgresDb.Database.Commit | relay-worker/src/db/database.ts:54 | the tables are kept and no transaction is open |
| PostgresDb.Database.Rollback | relay-worker/src/db/database.ts:58 | the tables return to the snapshot when a transaction was open, and are unchanged otherwise |
| PostgresDb.Database.GetApplicationById | relay-worker/src/db/database.ts:69-72 | throws exactly when its query does; otherwise returns the first application with the id, or none exactly when there is none |
| PostgresDb.Database.GetIncident | relay-worker/src/db/database.ts:74-77 | throws exactly when its query does; otherwise returns only a row matching name, message and application, or none exactly when no row matches |
| PostgresDb.Database.UpdateApplicationLastEventAt | relay-worker/src/db/database.ts:79-81 | stamps the application, or throws and writes nothing |
| PostgresDb.Database.CreateEvent | relay-worker/src/db/database.ts:139-159 | appends exactly one event with the given date, incident, application and browser (none when the insert returns no row), and stamps that incident and application. For each failing statement, the writes before it stay |
| PostgresDb.Database.CreateIncident | relay-worker/src/db/database.ts:83-137 | appends exactly one incident with the draft's fields, `last_event_at` = date, then stamps its application and records its first event, and returns the inserted row. For each failing statement, the writes before it stay |
| ProcessEventHandler.Processed | relay-worker/src/handlers/process-event-handler.ts:35-85 | a failed message leaves the tables as they were, and the error is from a throwing statement; an unknown application writes nothing; at most one event is added |
| ProcessEventHandler.Created | relay-worker/src/handlers/process-event-handler.ts:49-64 | the new-incident branch fails exactly when a statement of `createIncident` throws, and then leaves the tables unchanged; otherwise one incident is added |
| ProcessEventHandler.Appended | relay-worker/src/handlers/process-event-handler.ts:66-82 | the existing-incident branch fails exactly when a statement of `createEvent` throws, and then leaves the tables unchanged; it never adds an incident |
| ProcessEventHandler.TransactionBody | relay-worker/src/handlers/process-event-handler.ts:35-84 | the callback returns `Processed`'s result and, on success, leaves `Processed`'s tables (issuing ROLLBACK itself when the event row is missing); on failure the transaction stays open |
| ProcessEventHandler.PostgresTransaction | relay-worker/src/db/database.ts:47-67 | the checked-out connection is released on every path, and no transaction is left open. Success commits and returns the callback's result; failure rolls back to the tables at BEGIN and rethrows the same error |
| ProcessEventHandler.CaptureEvent | relay-worker/src/handlers/process-event-handler.ts:28-88 | every store step of one message runs in one transaction, whose result and final tables are `Processed`'s |
| ProcessEventHandler.HandleIncidentEvent | relay-worker/src/handlers/process-event-handler.ts:11-26 | an unparsable message is rethrown with no effect; otherwise the handler returns, or rethrows, what `captureEvent` does |
| ProcessEventHandler.UnknownApplicationWritesNothing | relay-worker/src/handlers/process-event-handler.ts:36-41 | no application with the id: no incident and no event is written, and the handler returns normally unless the lookup throws |
| ProcessEventHandler.AbsentKeyCreatesIncident | relay-worker/src/handlers/process-event-handler.ts:49-64 | an absent key gives exactly one new incident with that key. It is UNRESOLVED, created now, named after the payload's type, carries the envelope's SDK and has the payload's date as last event. Its first event is appended unless the insert returned no row, and the key count becomes one |
| ProcessEventHandler.PresentKeyAppendsEvent | relay-worker/src/handlers/process-event-handler.ts:66-72 | a present key creates no incident and appends exactly one event for the found incident, dated now, with the payload's non-empty browser |
| ProcessEventHandler.PresentKeyStampsNow | relay-worker/src/db/database.ts:155-156 | a present key: the found incident and the application take now as their last event time |
| ProcessEventHandler.MissingEventRollsBack | relay-worker/src/handlers/process-event-handler.ts:75-82 | a present key whose event insert returns no row leaves every table as it was |
| ProcessEventHandler.ProcessedKeepsUniqueKeys | relay-worker/src/handlers/process-event-handler.ts:43-64 | handling a message never gives two incidents the same key |
| ProcessEventHandler.ProcessedKeepsEventsLinked | relay-worker/src/handlers/process-event-handler.ts:43-72 | handling a message keeps every event attached to an existing incident |
| ProcessEventHandler.SecondMessageAppends | relay-worker/src/handlers/process-event-handler.ts:43-72 | a message whose key an incident carries keeps the incident and key counts, and adds one event for that incident after the existing ones |
| ProcessEventHandler.SameKeyTwiceOneIncident | relay-worker/src/handlers/process-event-handler.ts:43-72 | two messages with the same key leave one incident for it and two new events: the first message's event, then one dated at the second message's handling time |
| ProcessEventHandler.SameKeyTwiceLastEventAt | relay-worker/src/handlers/process-event-handler.ts:66-72 | after two same-key messages, the incident's last event time is the second message's handling time |
| ProcessEventHandler.SameKeyTwiceTwoEvents | relay-worker/src/handlers/process-event-handler.ts:43-72 | with every event linked, the incident the first message creates ends with exactly two events |
| Columnar.LogRows | relay-worker/src/db/database.ts:171-180 | one row per record, in order, giving back the records; the rows carry the given ids, one receive time, the application id, and `precise_timestamp` = the record's `unix` |
| Columnar.MetricRows | relay-worker/src/db/database.ts:194-201 | one row per flattened pair, in order, named by its key; the given ids, one timestamp, and the application id |
| Columnar.ClickhouseClient.InsertClickhouseLogs | relay-worker/src/db/database.ts:168-189 | appends the log rows in one step and returns the number of records; row ids stay unique; a failed insert appends nothing |
| Columnar.ClickhouseClient.InsertClickhouseMetrics | relay-worker/src/db/database.ts:191-210 | appends the metric rows in one step and returns their number; row ids stay unique; a failed insert appends nothing |
| ProcessLogsHandler.HandleLogsEvent | relay-worker/src/handlers/process-logs-handler.ts:7-29 | an unparsable message or a failed insert is rethrown and appends nothing; otherwise it returns the number of records and appends their rows under the envelope's application id |
| ProcessLogsHandler.AppendedRowsCarryAppId | relay-worker/src/handlers/process-logs-handler.ts:15-18 | one row per record is appended, and every appended row carries the envelope's application id |
| ProcessLogsHandler.SameMessageTwiceAppendsTwice | relay-worker/src/handlers/process-logs-handler.ts:13-18 | there is no deduplication: handling the same message twice leaves its records in the table twice |
| Performance.SortByValue | lib/src/api/performance/performance.service.ts:29-30 | the array ends sorted ascending by value and is a permutation of its input |
| Performance.IndexOfName | lib/src/api/performance/performance.service.ts:32 | the position of the name's entry, or none exactly when the dictionary has no entry for it |
| Performance.Add | lib/src/api/performance/performance.service.ts:31-36 | one step of the reducer: existing names keep their positions, entries of other names are untouched, at most one entry is added, the sample's name has an entry afterwards, the total number of values grows by one, and distinct names stay distinct |
| Performance.Grouped | lib/src/api/performance/performance.service.ts:31-36 | the dictionary the reducer builds has distinct names, no more entries than samples, and as many values in all as there are samples |
| Performance.GroupByName | lib/src/api/performance/performance.service.ts:31-36 | the reduce loop throws exactly when some sample's name is one the accumulator inherits; otherwise it builds the dictionary `Grouped` specifies |
| Performance.AddToEntry | lib/src/api/performance/performance.service.ts:32-33 | a sample whose name has an entry is pushed onto it, and the dictionary stays the grouping of the samples |
| Performance.AddNewEntry | lib/src/api/performance/performance.service.ts:32-33 | a sample whose name has no entry starts one at the end, and the dictionary stays the grouping of the samples |
| Performance.GroupedByName | lib/src/api/performance/performance.service.ts:31-36 | names are not repeated; a name has an entry exactly when a sample has it; each entry lists that name's values in input order |
| Performance.ValuesOfSorted | lib/src/api/performance/performance.service.ts:29-33 | samples sorted by value give each name its values in ascending order |
| Performance.SortedGroups | lib/src/api/performance/performance.service.ts:29-36 | after sorting, every group's list is ascending |
| Performance.Ceiling | lib/src/api/performance/performance.service.ts:54-56 | with a non-negative interval the ceiling is at least `MAX_VALUE` and at least the last value |
| Performance.NumBins | lib/src/api/performance/performance.service.ts:58 | the number of edges 0, interval, … not above the ceiling: the last edge is at most the ceiling and the next is beyond it; none for a negative ceiling |
| Performance.Histogram | lib/src/api/performance/performance.service.ts:58-67 | there are `ceiling / interval + 1` bins (none for a negative ceiling) |
| Performance.PushToBins | lib/src/api/performance/performance.service.ts:50-70 | the loop returns exactly `Histogram`'s bins |
| Performance.BinEdges | lib/src/api/performance/performance.service.ts:58-67 | edges start at 0 and step by the interval; the last edge is the largest multiple not above the ceiling; each bin counts the values from its edge to the next, both ends included |
| Performance.CountInRange | lib/src/api/performance/performance.service.ts:59-61 | the filter's count is at most the number of values, and zero exactly when no value lies in the range, ends included |
| Performance.BinGroups | lib/src/api/performance/performance.service.ts:38-41 | the loop over the dictionary's keys returns exactly `BinsOf`'s histograms |
| Performance.EveryValueBinned | lib/src/api/performance/performance.service.ts:56-61 | every value from 0 to the ceiling lies in the bin at `v / interval`, and a listed value there is counted |
| Performance.BoundaryCountedTwice | lib/src/api/performance/performance.service.ts:59-61 | a listed value on an edge between two bins is counted in both |
| Performance.SortedValuesCovered | lib/src/api/performance/performance.service.ts:54-61 | with ascending values, every non-negative value is counted in some bin |
| Performance.BinsOf | lib/src/api/performance/performance.service.ts:38-41 | one histogram per group, keyed by the group's name, in dictionary order |
| Performance.UnconfiguredVitalBins | lib/src/api/performance/performance.service.ts:50 | a vital with no configured interval or maximum uses 100 for both; with values up to 100 it gets exactly the bins 0 and 100 |
| Performance.GetPerformanceBins | lib/src/api/performance/performance.service.ts:26-48 | an error response exactly when loading failed or some sample's name is inherited by the accumulator (the `push` throws into the catch); otherwise the bins of the grouping of a sorted permutation of the samples |
| Performance.OwnNamesPermutation | lib/src/api/performance/performance.service.ts:29-33 | sorting cannot change whether an inherited name is present, so the error does not depend on the order the samples were loaded in |

## Left out

- Broker I/O (the `KafkaService`, subscriptions, acknowledgement, offsets). Published messages are an output list. A synchronous throw of `send` is a boolean parameter; its asynchronous failure is not observed by the source either.
- Logging and `ExceptionHandlers.catchException`: side channels with no effect on state.
- SQL text, string interpolation into queries, `pg-format`, and JSON serialisation of `traces`, `resources` and the envelope. Rows are records, and the payload is an opaque string.
- `flatObject` is not part of this model. The metrics writer takes the flattened (key, value) pairs as its input.
- Concurrency. Only one message is handled at a time; nothing is claimed about deduplication under concurrent delivery.
- Connection isolation. The callback runs on `this.client`, while BEGIN, COMMIT and ROLLBACK go to the pooled connection (`database.ts:50-58`). In the program neither ROLLBACK therefore undoes the callback's writes. The model has a single store that BEGIN snapshots and ROLLBACK restores, and `Processed`, `Created`, `Appended`, `PostgresTransaction` and `MissingEventRollsBack` state the rollbacks of that single-store transaction only. The pool is modelled only as a checkout counter. `connect`, BEGIN, COMMIT and ROLLBACK are taken not to throw.
- `insertRuntimeConfigs`: one JSON-blob update with nothing to state.
- Fractional vitals values; values, intervals and maxima are integers.
- Capture.FirstWithKey: the lookup query has no ORDER BY (`capture.service.ts:118`), so which row is `project[0]` when several share a key is up to the database; the model takes the first in table order.
- Capture.RouteTopic: the topic names are imported constants; that no two routes share one is a property of the five distinct constructors of `KafkaTopic`, not of the topic strings.
- Capture.Process: the SQL text is not modelled, so whether the lookup or the flag update throws (for example on a quote in the key's unchecked prefix) is the `Faults` input.
- PostgresDb.Database.GetIncident: row order in a table is insertion order, so "the first row" is the first inserted match; SQL gives no order without ORDER BY.
- Performance.GroupByName: the dictionary keeps first-insertion order. JavaScript lists integer-like keys first, and vital names are not integer-like, so this order is not modelled.
- Performance.SortByValue: proved sorted and a permutation; stability (`Array.prototype.sort` is stable) is not proved.
- Performance.GetPerformanceBins: requires every configured interval to be positive. With a zero or negative interval the source's loop does not end.
- Performance.PushToBins: requires a positive interval, for the same reason.
- Performance.Ceiling: states bounds, not the exact value, because stating the exact value would only repeat its one-line body. No other member pins the value down.
- ProcessLogsHandler.HandleLogsEvent: on a failed insert it states that a store error is returned, not which one (there is only one kind).
- The worker's messages are taken to have their declared shape: the handlers cast the parsed JSON without checking it, and the model's `IncidentEnvelope` and `LogsEnvelope` make every field present. A message without `type` or `message` passes `undefined` to the incident lookup (`process-event-handler.ts:43-47`, `database.ts:75`); the `name = $1` / `message = $2` comparisons against NULL never match, so every such message creates a new incident, and `PresentKeyAppendsEvent` and `SameKeyTwiceOneIncident` hold only for messages that carry both. The capture service publishes the project id as `projectId` (`capture.service.ts:91`), while both handlers read `appId` (`process-event-handler.ts:29`, `process-logs-handler.ts:16`); the worker envelopes carry `appId` as the handlers read it and are not derived from the published `Envelope`.
- The incident's `traces` column (stored as JSON text) is not modelled; `stack` and `platform` are carried through as strings.
