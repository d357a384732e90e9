/**
 * The capture service of the ingest API: an ordered chain of checks on an
 * incoming request (demo flag, key present, key shape, SDK name present and
 * known, project lookup by key), the integration flag set on first use, and one
 * envelope `{sdk, projectId, payload}` published to the topic of the request's
 * route.
 *
 * The project table is a sequence of rows and the broker is the list of
 * messages sent, so `Process` is a function from the request and the table to
 * the response, the new table and the messages published.
 */
module Capture {
  import opened Wrappers
  import opened CaptureKey

  /** `CAPTURE_ROUTE`: the five kinds of capture request. */
  datatype CaptureRoute = Incident | Logs | Metrics | Tracing | BrowserPerfs

  /** The broker topics the capture service publishes to. */
  datatype KafkaTopic = IncidentEvent | LogsEvent | MetricsEvent | TracingEvent | BrowserPerfsEvent

  /** `mapRouteToTopic`: one fixed topic per route, from which the route can be read back. */
  function RouteTopic(route: CaptureRoute): (topic: KafkaTopic)
    ensures TopicRoute(topic) == route
  {
    match route
    case Incident => IncidentEvent
    case Logs => LogsEvent
    case Metrics => MetricsEvent
    case Tracing => TracingEvent
    case BrowserPerfs => BrowserPerfsEvent
  }

  /** The route whose requests a topic carries. */
  function TopicRoute(topic: KafkaTopic): (route: CaptureRoute) {
    match topic
    case IncidentEvent => Incident
    case LogsEvent => Logs
    case MetricsEvent => Metrics
    case TracingEvent => Tracing
    case BrowserPerfsEvent => BrowserPerfs
  }

  /** The routing table is a bijection: no two routes share a topic and every topic serves a route. */
  lemma RouteTopicBijective(route: CaptureRoute, topic: KafkaTopic)
    ensures TopicRoute(RouteTopic(route)) == route
    ensures RouteTopic(TopicRoute(topic)) == topic
  {
  }

  /** A row of the `project` table, as far as the capture service reads and writes it. */
  datatype Project = Project(id: string, apiKey: string, isIntegrated: bool)

  /** Position of the first row whose key is `key`: the row `project[0]` of the lookup query. */
  function FirstWithKey(projects: seq<Project>, key: string): (r: Option<nat>)
    ensures r.Some? ==> r.value < |projects| && projects[r.value].apiKey == key
    ensures r.Some? ==> forall j :: 0 <= j < r.value ==> projects[j].apiKey != key
    ensures r.None? <==> forall j :: 0 <= j < |projects| ==> projects[j].apiKey != key
    decreases |projects|
  {
    if projects == [] then None
    else if projects[0].apiKey == key then Some(0)
    else
      match FirstWithKey(projects[1..], key)
      case None => None
      case Some(k) => Some(k + 1)
  }

  /** The lookup depends on the keys of the rows only, so rewriting integration flags never moves it. */
  lemma {:induction false} FirstWithKeyIgnoresFlags(ps: seq<Project>, qs: seq<Project>, key: string)
    requires |ps| == |qs|
    requires forall j :: 0 <= j < |ps| ==> ps[j].apiKey == qs[j].apiKey
    ensures FirstWithKey(ps, key) == FirstWithKey(qs, key)
    decreases |ps|
  {
    if ps != [] {
      FirstWithKeyIgnoresFlags(ps[1..], qs[1..], key);
    }
  }

  /** `UPDATE project SET is_integrated = 'true' WHERE id = …`: sets the flag on every row with that id. */
  function MarkIntegrated(projects: seq<Project>, id: string): (r: seq<Project>)
    ensures |r| == |projects|
    ensures forall j :: 0 <= j < |r| ==> r[j].id == projects[j].id && r[j].apiKey == projects[j].apiKey
    ensures forall j :: 0 <= j < |r| ==> r[j].isIntegrated == (projects[j].isIntegrated || projects[j].id == id)
  {
    seq(|projects|, j requires 0 <= j < |projects| =>
      if projects[j].id == id then projects[j].(isIntegrated := true) else projects[j])
  }

  /** The id found by the key lookup (if any) and the project table after the integration update. */
  datatype Lookup = Lookup(projectId: Option<string>, projects: seq<Project>)

  /** The two statements `retrieveProjectId` awaits: the lookup by key and the integration update. */
  datatype ProjectQuery = SelectProject | UpdateProject

  /** Every row keeps its id and key, and an integration flag that was set stays set. */
  ghost predicate FlagsOnlyRaised(before: seq<Project>, after: seq<Project>) {
    && |after| == |before|
    && (forall j :: 0 <= j < |before| ==> after[j].id == before[j].id && after[j].apiKey == before[j].apiKey)
    && (forall j :: 0 <= j < |before| ==> before[j].isIntegrated ==> after[j].isIntegrated)
  }

  /**
   * `retrieveProjectId`: the id of the first project with the key; a project not
   * yet integrated is marked integrated, and an integrated one is not written.
   * Either awaited statement may throw (`selectThrows`, `updateThrows`); the
   * error then leaves the function, and a failed update sets no flag.
   */
  function RetrieveProjectId(key: string, projects: seq<Project>, selectThrows: bool, updateThrows: bool)
    : (r: Result<Lookup, ProjectQuery>)
    ensures r.Err? <==>
              || selectThrows
              || (updateThrows && FirstWithKey(projects, key).Some? && !projects[FirstWithKey(projects, key).value].isIntegrated)
    ensures r.Err? ==> (r.error == SelectProject <==> selectThrows)
    ensures r.Ok? ==> (r.value.projectId.None? <==> forall j :: 0 <= j < |projects| ==> projects[j].apiKey != key)
    ensures r.Ok? && r.value.projectId.None? ==> r.value.projects == projects
    ensures r.Ok? ==> |r.value.projects| == |projects|
    ensures r.Ok? && r.value.projectId.Some? ==>
      && FirstWithKey(projects, key).Some?
      && var j := FirstWithKey(projects, key).value;
         && r.value.projectId.value == projects[j].id && r.value.projects[j].isIntegrated
         && r.value.projects == if projects[j].isIntegrated then projects else MarkIntegrated(projects, projects[j].id)
    ensures r.Ok? ==> FlagsOnlyRaised(projects, r.value.projects)
  {
    if selectThrows then Err(SelectProject)
    else
      match FirstWithKey(projects, key)
      case None => Ok(Lookup(None, projects))
      case Some(i) =>
        var p := projects[i];
        if p.isIntegrated then Ok(Lookup(Some(p.id), projects))
        else if updateThrows then Err(UpdateProject)
        else Ok(Lookup(Some(p.id), MarkIntegrated(projects, p.id)))
  }

  /**
   * A second lookup with the same key finds the same project and writes
   * nothing, so a failing update statement cannot disturb it.
   */
  lemma RetrieveProjectIdIdempotent(key: string, projects: seq<Project>, selectThrows: bool, updateThrows: bool, updateThrowsAgain: bool)
    ensures var first := RetrieveProjectId(key, projects, selectThrows, updateThrows);
            first.Ok? ==> RetrieveProjectId(key, first.value.projects, selectThrows, updateThrowsAgain) == first
  {
    var first := RetrieveProjectId(key, projects, selectThrows, updateThrows);
    if first.Ok? {
      FirstWithKeyIgnoresFlags(projects, first.value.projects, key);
    }
  }

  const SdkKeyHeader: string := "x-sdk-key"
  const SdkNameHeader: string := "x-sdk-name"

  /** A header that is absent or empty counts as missing (the source tests it with `||` and `!`). */
  function HeaderValue(headers: map<string, string>, name: string): (v: Option<string>)
    ensures v.Some? <==> name in headers && headers[name] != ""
    ensures v.Some? ==> v.value == headers[name]
  {
    if name in headers && headers[name] != "" then Some(headers[name]) else None
  }

  /** The request body, passed on to the broker untouched. */
  type Payload = string

  /** `CaptureType`: the route, the raw body and the request headers. */
  datatype CaptureRequest = CaptureRequest(route: CaptureRoute, payload: Payload, headers: map<string, string>)

  /** Deployment facts the service reads: the demo switch and the values of the SDK enumeration. */
  datatype Config = Config(demo: bool, knownSdks: set<string>)

  /** Why a request was refused; each matches one error response of the service. */
  datatype CaptureError =
    | DemoMode      // events are not processed in the demo version
    | MissingKey    // no api key provided
    | InvalidKey    // api key does not have the expected shape
    | MissingSdk    // no SDK name header
    | InvalidSdk    // SDK name not among the known SDKs
    | UnknownKey    // no project has this key
    | SendFailed    // the broker client threw while sending

  /**
   * What `process` gives back: a success or an error response, or a rejection
   * because a statement of `retrieveProjectId`, awaited outside any `try`, threw.
   */
  datatype Response = Success | Error(error: CaptureError) | Thrown(query: ProjectQuery)

  /** `KafkaEventPayload`. */
  datatype Envelope = Envelope(sdk: string, projectId: string, payload: Payload)

  /** One message handed to the broker. */
  datatype Message = Message(topic: KafkaTopic, envelope: Envelope)

  /** What one call of `Process` leaves behind. */
  datatype CaptureOutcome = CaptureOutcome(response: Response, projects: seq<Project>, sent: seq<Message>)

  /** The error responses raised before the project table is consulted. */
  predicate EarlyError(r: Response) {
    r.Error? && r.error in {DemoMode, MissingKey, InvalidKey, MissingSdk, InvalidSdk}
  }

  /** The key and SDK name of a request that passed the header checks. */
  datatype Credentials = Credentials(key: string, sdk: string)

  /**
   * The header checks of `process`, in the source's order: demo flag, key
   * present, key shape, SDK name present, SDK name known.
   */
  function Validate(config: Config, request: CaptureRequest): (v: Result<Credentials, CaptureError>)
    ensures v.Err? ==> v.error in {DemoMode, MissingKey, InvalidKey, MissingSdk, InvalidSdk}
    ensures v.Ok? <==>
      && !config.demo
      && HeaderValue(request.headers, SdkKeyHeader).Some? && IsValidApiKey(request.headers[SdkKeyHeader])
      && HeaderValue(request.headers, SdkNameHeader).Some? && request.headers[SdkNameHeader] in config.knownSdks
    ensures v.Ok? ==> v.value == Credentials(request.headers[SdkKeyHeader], request.headers[SdkNameHeader])
  {
    if config.demo then Err(DemoMode)
    else
      match HeaderValue(request.headers, SdkKeyHeader)
      case None => Err(MissingKey)
      case Some(key) =>
        if !IsValidApiKey(key) then Err(InvalidKey)
        else
          match HeaderValue(request.headers, SdkNameHeader)
          case None => Err(MissingSdk)
          case Some(sdk) =>
            if sdk !in config.knownSdks then Err(InvalidSdk)
            else Ok(Credentials(key, sdk))
  }

  /**
   * Which of the statements `process` depends on throw: the project lookup, the
   * integration update, and the broker client when handed the message (its
   * failure is otherwise not observed: the send is not awaited).
   */
  datatype Faults = Faults(selectThrows: bool, updateThrows: bool, sendThrows: bool)

  /** `process`. */
  function Process(config: Config, request: CaptureRequest, projects: seq<Project>, faults: Faults): (out: CaptureOutcome)
    ensures |out.projects| == |projects|
    ensures !out.response.Success? ==> out.sent == []
    ensures EarlyError(out.response) ==> out.projects == projects
    ensures out.response.Thrown? ==> out.projects == projects && (out.response.query == SelectProject <==> faults.selectThrows)
    ensures FlagsOnlyRaised(projects, out.projects)
    ensures out.projects == projects ||
      (&& Validate(config, request).Ok?
       && FirstWithKey(projects, Validate(config, request).value.key).Some?
       && out.projects == MarkIntegrated(projects, projects[FirstWithKey(projects, Validate(config, request).value.key).value].id))
    // once the headers pass, the lookup decides: its error is rethrown, its table is
    // kept on every later path, and an empty id or a throwing send gives its own error
    ensures Validate(config, request).Ok? ==>
      var l := RetrieveProjectId(Validate(config, request).value.key, projects, faults.selectThrows, faults.updateThrows);
      && (out.response.Thrown? <==> l.Err?)
      && (l.Err? ==> out.response == Thrown(l.error))
      && (l.Ok? ==> out.projects == l.value.projects)
      && (l.Ok? && (l.value.projectId.None? || l.value.projectId.value == "") ==> out.response == Error(UnknownKey))
      && (l.Ok? && l.value.projectId.Some? && l.value.projectId.value != "" && faults.sendThrows
          ==> out.response == Error(SendFailed))
    ensures out.response == Success ==>
      && Validate(config, request).Ok? && !faults.selectThrows && !faults.sendThrows
      && var c := Validate(config, request).value;
         && FirstWithKey(projects, c.key).Some?
         && var j := FirstWithKey(projects, c.key).value;
            && projects[j].id != ""
            && out.sent == [Message(RouteTopic(request.route), Envelope(c.sdk, projects[j].id, request.payload))]
            && out.projects[j].isIntegrated
  {
    match Validate(config, request)
    case Err(e) => CaptureOutcome(Error(e), projects, [])
    case Ok(Credentials(key, sdk)) =>
      var topic := RouteTopic(request.route);
      match RetrieveProjectId(key, projects, faults.selectThrows, faults.updateThrows)
      case Err(q) => CaptureOutcome(Thrown(q), projects, [])
      case Ok(lookup) =>
        // `!project_id`: an empty id is falsy, and is refused after the flag update
        if lookup.projectId.None? || lookup.projectId.value == "" then
          CaptureOutcome(Error(UnknownKey), lookup.projects, [])
        else if faults.sendThrows then
          CaptureOutcome(Error(SendFailed), lookup.projects, [])
        else
          CaptureOutcome(Success, lookup.projects, [Message(topic, Envelope(sdk, lookup.projectId.value, request.payload))])
  }

  /** In demo mode every request is refused before anything else is looked at. */
  lemma DemoRejectsEverything(config: Config, request: CaptureRequest, projects: seq<Project>, faults: Faults)
    requires config.demo
    ensures Process(config, request, projects, faults) == CaptureOutcome(Error(DemoMode), projects, [])
  {
  }

  /** A missing or empty key is refused with no lookup, no flag update and no publish. */
  lemma MissingKeyRejected(config: Config, request: CaptureRequest, projects: seq<Project>, faults: Faults)
    requires !config.demo
    requires SdkKeyHeader !in request.headers || request.headers[SdkKeyHeader] == ""
    ensures Process(config, request, projects, faults) == CaptureOutcome(Error(MissingKey), projects, [])
  {
  }

  /** A present key that is not a prefixed UUID is refused with no side effect. */
  lemma MalformedKeyRejected(config: Config, request: CaptureRequest, projects: seq<Project>, faults: Faults)
    requires !config.demo
    requires SdkKeyHeader in request.headers && request.headers[SdkKeyHeader] != ""
    requires |request.headers[SdkKeyHeader]| != 39 || !UuidLayout(request.headers[SdkKeyHeader][3..])
    ensures Process(config, request, projects, faults) == CaptureOutcome(Error(InvalidKey), projects, [])
  {
  }

  /** The SDK name is checked only once the key has passed, and a missing or unknown name is refused with no side effect. */
  lemma SdkCheckedAfterKey(config: Config, request: CaptureRequest, projects: seq<Project>, faults: Faults)
    requires !config.demo
    requires HeaderValue(request.headers, SdkKeyHeader).Some? && IsValidApiKey(request.headers[SdkKeyHeader])
    ensures var out := Process(config, request, projects, faults);
            && (HeaderValue(request.headers, SdkNameHeader).None? ==> out == CaptureOutcome(Error(MissingSdk), projects, []))
            && ((HeaderValue(request.headers, SdkNameHeader).Some? && request.headers[SdkNameHeader] !in config.knownSdks)
                ==> out == CaptureOutcome(Error(InvalidSdk), projects, []))
  {
  }

  /** A well-formed key that no project holds is refused; nothing is published and no row is written. */
  lemma UnknownKeyRejected(config: Config, request: CaptureRequest, projects: seq<Project>, faults: Faults)
    requires !config.demo && !faults.selectThrows
    requires HeaderValue(request.headers, SdkKeyHeader).Some? && IsValidApiKey(request.headers[SdkKeyHeader])
    requires HeaderValue(request.headers, SdkNameHeader).Some? && request.headers[SdkNameHeader] in config.knownSdks
    requires forall j :: 0 <= j < |projects| ==> projects[j].apiKey != request.headers[SdkKeyHeader]
    ensures Process(config, request, projects, faults) == CaptureOutcome(Error(UnknownKey), projects, [])
  {
  }

  /**
   * Once the headers pass, a throwing project lookup, or a throwing integration
   * update for a project not yet integrated, rejects the request: nothing is
   * published and no flag is set.
   */
  lemma LookupFailureRejects(config: Config, request: CaptureRequest, projects: seq<Project>, faults: Faults)
    requires Validate(config, request).Ok?
    ensures var out := Process(config, request, projects, faults);
            var key := Validate(config, request).value.key;
            && (faults.selectThrows ==> out == CaptureOutcome(Thrown(SelectProject), projects, []))
            && (!faults.selectThrows && faults.updateThrows
                && FirstWithKey(projects, key).Some? && !projects[FirstWithKey(projects, key).value].isIntegrated
                ==> out == CaptureOutcome(Thrown(UpdateProject), projects, []))
  {
  }

  /**
   * A request that passes every check, for a key held by a project with a
   * non-empty id, whose lookup, update (if one is needed) and send do not
   * throw, is answered with success. It publishes exactly one envelope
   * carrying the SDK name, that project's id and the unchanged payload, on the
   * route's topic; the project is integrated afterwards and no other row is
   * written.
   */
  lemma AcceptedRequestPublishes(config: Config, request: CaptureRequest, projects: seq<Project>, faults: Faults, i: nat)
    requires !config.demo && !faults.selectThrows && !faults.sendThrows
    requires HeaderValue(request.headers, SdkKeyHeader).Some? && IsValidApiKey(request.headers[SdkKeyHeader])
    requires HeaderValue(request.headers, SdkNameHeader).Some? && request.headers[SdkNameHeader] in config.knownSdks
    requires i < |projects| && projects[i].apiKey == request.headers[SdkKeyHeader] && projects[i].id != ""
    requires forall j :: 0 <= j < i ==> projects[j].apiKey != request.headers[SdkKeyHeader]
    requires !projects[i].isIntegrated ==> !faults.updateThrows
    ensures var out := Process(config, request, projects, faults);
            && out.response == Success
            && out.sent == [Message(RouteTopic(request.route),
                                    Envelope(request.headers[SdkNameHeader], projects[i].id, request.payload))]
            && out.projects == if projects[i].isIntegrated then projects else MarkIntegrated(projects, projects[i].id)
  {
    assert FirstWithKey(projects, request.headers[SdkKeyHeader]) == Some(i);
  }

  /**
   * Sending the same request twice, with the same statements failing, leaves
   * the project table as the first call left it, with the same response and
   * message.
   */
  lemma ProcessIdempotentOnProjects(config: Config, request: CaptureRequest, projects: seq<Project>, faults: Faults)
    ensures var first := Process(config, request, projects, faults);
            Process(config, request, first.projects, faults) == first
  {
    match Validate(config, request)
    case Err(_) =>
    case Ok(Credentials(key, sdk)) =>
      var lookup := RetrieveProjectId(key, projects, faults.selectThrows, faults.updateThrows);
      RetrieveProjectIdIdempotent(key, projects, faults.selectThrows, faults.updateThrows, faults.updateThrows);
      if lookup.Ok? {
        assert RetrieveProjectId(key, lookup.value.projects, faults.selectThrows, faults.updateThrows) == lookup;
      }
  }
}
