/** The monitoring adapter (`DatadogMCPClientTool`): the credential check of its
    constructor, the dispatch of `_run`, the monitor fallback chain with its
    P1/P2 post-filter, the log query defaults and the metrics placeholder.
    The Datadog APIs are parameters: each call returns a value or the text
    of the exception it raised. */
module Datadog {
  import opened Wrappers
  import opened Environment
  import opened PyValue

  const ToolName := "datadog_client"

  datatype DatadogTool = DatadogTool(apiKey: string, appKey: string)

  const MissingKeysMessage := "DATADOG_API_KEY and DATADOG_APP_KEY environment variables are required"

  /** The constructor: both keys must be set and non-empty. */
  function NewDatadogTool(env: Env): (r: Result<DatadogTool, Exception>)
    ensures r.Ok? <==> IsSet(env, "DATADOG_API_KEY") && IsSet(env, "DATADOG_APP_KEY")
    ensures r.Err? ==> r.error == ValueError(MissingKeysMessage)
    ensures r.Ok? ==> r.value.apiKey == env["DATADOG_API_KEY"] && r.value.appKey == env["DATADOG_APP_KEY"]
  {
    var apiKey := GetEnv(env, "DATADOG_API_KEY");
    var appKey := GetEnv(env, "DATADOG_APP_KEY");
    if apiKey.GetOr("") == "" || appKey.GetOr("") == "" then Err(ValueError(MissingKeysMessage))
    else Ok(DatadogTool(apiKey.value, appKey.value))
  }

  // ---------------------------------------------------------------- monitors

  /** A `list_monitors` request: the alerting query, with or without a tag
      filter, or the call without any filter. */
  datatype MonitorQuery = Alerting(groupStates: string, tags: Option<string>) | Unfiltered

  /** The attributes the projection reads from a critical monitor. `created`
      holds the outcome of `isoformat()` when the monitor has a creation time. */
  datatype MonitorFields = MonitorFields(
    id: int,
    name: string,
    message: string,
    overallState: string,
    tags: Option<seq<string>>,
    created: Option<Result<string, string>>,
    query: string)

  /** A monitor as the backend returns it: reading its priority, or the other
      attributes, may raise (with the exception text). */
  datatype Monitor = Monitor(priority: Result<Option<int>, string>, fields: Result<MonitorFields, string>)

  /** One entry of `critical_alerts`. */
  datatype Alert = Alert(
    id: int,
    name: string,
    message: string,
    priority: string,
    state: string,
    tags: seq<string>,
    created: Option<string>,
    query: string)

  /** The envelope `_get_active_monitors` serialises. */
  datatype MonitorsResult = MonitorsOk(count: nat, alerts: seq<Alert>) | MonitorsError(message: string)

  const MonitorsFailure := "Failed to fetch monitors: "

  /** `",".join(tags_list) if tags_list else None`, or the TypeError text of the join. */
  function TagsString(tags: Json): (r: Result<Option<string>, string>)
    ensures !Truthy(tags) ==> r == Ok(None)
    ensures Truthy(tags) ==> (r.Ok? <==> JoinValues(",", tags).Ok?)
    ensures r.Ok? && r.value.Some? ==> Truthy(tags) && r.value.value == JoinValues(",", tags).value
  {
    if !Truthy(tags) then Ok(None)
    else
      var joined :- JoinValues(",", tags);
      Ok(Some(joined))
  }

  /** The first request: alerting monitors, filtered by tags only when the
      joined tag string is non-empty. */
  function FirstQuery(tagsString: Option<string>): (q: MonitorQuery)
    ensures q.Alerting? && q.groupStates == "Alert,Warn"
    ensures q.tags.Some? <==> tagsString.Some? && tagsString.value != ""
    ensures q.tags.Some? ==> q.tags == tagsString
  {
    if tagsString.Some? && tagsString.value != "" then Alerting("Alert,Warn", tagsString)
    else Alerting("Alert,Warn", None)
  }

  /** The nested try/except: the first request, else the unfiltered one, else no monitors. */
  function FetchMonitors(first: MonitorQuery, listMonitors: MonitorQuery -> Result<seq<Monitor>, string>): seq<Monitor> {
    match listMonitors(first)
    case Ok(ms) => ms
    case Err(_) =>
      match listMonitors(Unfiltered)
      case Ok(ms) => ms
      case Err(_) => []
  }

  /** `monitor.priority in [1, 2]`. */
  predicate IsCritical(priority: Option<int>) {
    priority == Some(1) || priority == Some(2)
  }

  /** `monitor.created.isoformat() if monitor.created else None`. */
  function RenderCreated(created: Option<Result<string, string>>): Result<Option<string>, string> {
    match created
    case None => Ok(None)
    case Some(Ok(iso)) => Ok(Some(iso))
    case Some(Err(e)) => Err(e)
  }

  /** The loop body for one monitor: skipped (None), kept with its alert record, or failed. */
  function Triage(m: Monitor): (r: Result<Option<Alert>, string>)
    ensures r.Ok? ==> m.priority.Ok? && (r.value.Some? <==> IsCritical(m.priority.value))
    ensures r.Ok? && r.value.Some? ==> r.value.value.priority == "P1" || r.value.value.priority == "P2"
    ensures r.Ok? && r.value.Some? ==> r.value.value.priority == "P" + IntString(m.priority.value.value)
    ensures r.Err? <==> m.priority.Err? || (IsCritical(m.priority.value) && (m.fields.Err? || RenderCreated(m.fields.value.created).Err?))
    ensures m.priority.Err? ==> r == Err(m.priority.error)
    ensures (m.priority.Ok? && IsCritical(m.priority.value) && m.fields.Err?) ==> r == Err(m.fields.error)
    ensures (m.priority.Ok? && IsCritical(m.priority.value) && m.fields.Ok? && RenderCreated(m.fields.value.created).Err?) ==>
      r == Err(RenderCreated(m.fields.value.created).error)
    ensures r.Ok? && r.value.Some? ==> m.fields.Ok? && RenderCreated(m.fields.value.created).Ok?
    ensures r.Ok? && r.value.Some? ==>
      var a, f := r.value.value, m.fields.value;
      a.id == f.id && a.name == f.name && a.message == f.message && a.state == f.overallState
      && a.tags == f.tags.GetOr([]) && a.created == RenderCreated(f.created).value && a.query == f.query
  {
    var priority :- m.priority;
    if !IsCritical(priority) then Ok(None)
    else
      var f :- m.fields;
      var created :- RenderCreated(f.created);
      assert IntString(1) == "1" && IntString(2) == "2";
      Ok(Some(Alert(f.id, f.name, f.message, "P" + IntString(priority.value), f.overallState, f.tags.GetOr([]), created, f.query)))
  }

  /** What the loop over the monitors produces: the alert records in backend
      order, or the text of the first exception. */
  function CriticalAlerts(ms: seq<Monitor>): (r: Result<seq<Alert>, string>)
    ensures r.Ok? ==> forall k :: 0 <= k < |r.value| ==> r.value[k].priority == "P1" || r.value[k].priority == "P2"
    ensures r.Ok? <==> forall i :: 0 <= i < |ms| ==> Triage(ms[i]).Ok?
    ensures r.Err? ==> exists i :: (0 <= i < |ms| && Triage(ms[i]).Err? && r.error == Triage(ms[i]).error
                                    && forall j :: 0 <= j < i ==> Triage(ms[j]).Ok?)
  {
    if ms == [] then Ok([])
    else
      var acc :- CriticalAlerts(ms[..|ms| - 1]);
      var t :- Triage(ms[|ms| - 1]);
      assert forall i :: 0 <= i < |ms| - 1 ==> ms[..|ms| - 1][i] == ms[i];
      Ok(if t.Some? then acc + [t.value] else acc)
  }

  /** The monitors that pass the priority filter, an independent statement of the filter. */
  function CriticalMonitors(ms: seq<Monitor>): seq<Monitor> {
    if ms == [] then []
    else
      var last := ms[|ms| - 1];
      CriticalMonitors(ms[..|ms| - 1]) + (if last.priority.Ok? && IsCritical(last.priority.value) then [last] else [])
  }

  /** The alerts are exactly the records of the critical monitors, one each, in backend order. */
  lemma {:induction false} AlertsFollowBackendOrder(ms: seq<Monitor>)
    requires CriticalAlerts(ms).Ok?
    ensures |CriticalAlerts(ms).value| == |CriticalMonitors(ms)|
    ensures forall k :: 0 <= k < |CriticalMonitors(ms)| ==> Triage(CriticalMonitors(ms)[k]) == Ok(Some(CriticalAlerts(ms).value[k]))
  {
    if ms != [] {
      var init := ms[..|ms| - 1];
      AlertsFollowBackendOrder(init);
    }
  }

  /** The first exception met in the loop ends it: an error on a prefix is the error of the whole. */
  lemma {:induction false} FirstErrorWins(ms: seq<Monitor>, n: nat)
    requires n <= |ms| && CriticalAlerts(ms[..n]).Err?
    ensures CriticalAlerts(ms) == CriticalAlerts(ms[..n])
  {
    if n < |ms| {
      assert ms[..|ms| - 1][..n] == ms[..n];
      FirstErrorWins(ms[..|ms| - 1], n);
    } else {
      assert ms[..n] == ms;
    }
  }

  /** `_get_active_monitors` as a value. */
  function MonitorsReply(params: Members, listMonitors: MonitorQuery -> Result<seq<Monitor>, string>): (r: MonitorsResult)
    ensures r.MonitorsOk? ==> r.count == |r.alerts|
    ensures r.MonitorsOk? ==> forall k :: 0 <= k < |r.alerts| ==> r.alerts[k].priority == "P1" || r.alerts[k].priority == "P2"
    ensures r.MonitorsError? ==> StartsWith(r.message, MonitorsFailure)
    ensures TagsString(Get(params, "tags", JArr([]))).Err? ==>
      r == MonitorsError(MonitorsFailure + TagsString(Get(params, "tags", JArr([]))).error)
  {
    match TagsString(Get(params, "tags", JArr([])))
    case Err(e) => MonitorsError(MonitorsFailure + e)
    case Ok(tags) =>
      match CriticalAlerts(FetchMonitors(FirstQuery(tags), listMonitors))
      case Err(e) => MonitorsError(MonitorsFailure + e)
      case Ok(alerts) => MonitorsOk(|alerts|, alerts)
  }

  /** `_get_active_monitors`: the fallback chain, then the loop that keeps P1/P2
      monitors. `calls` lists the requests made, in order. */
  method GetActiveMonitors(params: Members, listMonitors: MonitorQuery -> Result<seq<Monitor>, string>)
    returns (r: MonitorsResult, calls: seq<MonitorQuery>)
    ensures r == MonitorsReply(params, listMonitors)
    ensures TagsString(Get(params, "tags", JArr([]))).Err? ==> calls == []
    ensures TagsString(Get(params, "tags", JArr([]))).Ok? ==>
      1 <= |calls| <= 2 && calls[0] == FirstQuery(TagsString(Get(params, "tags", JArr([]))).value)
    ensures |calls| == 2 <==> |calls| > 0 && listMonitors(calls[0]).Err?
    ensures |calls| == 2 ==> calls[1] == Unfiltered
  {
    var tags := TagsString(Get(params, "tags", JArr([])));
    if tags.Err? {
      return MonitorsError(MonitorsFailure + tags.error), [];
    }
    var first := FirstQuery(tags.value);
    var monitors: seq<Monitor>;
    var attempt := listMonitors(first);
    calls := [first];
    if attempt.Ok? {
      monitors := attempt.value;
    } else {
      var retry := listMonitors(Unfiltered);
      calls := calls + [Unfiltered];
      monitors := if retry.Ok? then retry.value else [];
    }
    assert monitors == FetchMonitors(first, listMonitors);
    var critical: seq<Alert> := [];
    var i := 0;
    while i < |monitors|
      invariant 0 <= i <= |monitors|
      invariant CriticalAlerts(monitors[..i]) == Ok(critical)
    {
      var t := Triage(monitors[i]);
      assert monitors[..i + 1][..i] == monitors[..i];
      if t.Err? {
        FirstErrorWins(monitors, i + 1);
        return MonitorsError(MonitorsFailure + t.error), calls;
      }
      if t.value.Some? {
        critical := critical + [t.value.value];
      }
      i := i + 1;
    }
    assert monitors[..i] == monitors;
    r := MonitorsOk(|critical|, critical);
  }

  /** Both requests failing is not an error: the envelope is a success with no alerts. */
  lemma ExhaustedFallbackIsEmptySuccess(params: Members, listMonitors: MonitorQuery -> Result<seq<Monitor>, string>)
    requires TagsString(Get(params, "tags", JArr([]))).Ok?
    requires listMonitors(FirstQuery(TagsString(Get(params, "tags", JArr([]))).value)).Err?
    requires listMonitors(Unfiltered).Err?
    ensures MonitorsReply(params, listMonitors) == MonitorsOk(0, [])
  {
  }

  /** When the first request fails and the unfiltered one succeeds, the alerts
      come from the unfiltered result, still restricted to P1/P2. */
  lemma FallbackUsesUnfilteredResult(params: Members, listMonitors: MonitorQuery -> Result<seq<Monitor>, string>, ms: seq<Monitor>)
    requires TagsString(Get(params, "tags", JArr([]))).Ok?
    requires listMonitors(FirstQuery(TagsString(Get(params, "tags", JArr([]))).value)).Err?
    requires listMonitors(Unfiltered) == Ok(ms)
    ensures CriticalAlerts(ms).Ok? ==> MonitorsReply(params, listMonitors) == MonitorsOk(|CriticalAlerts(ms).value|, CriticalAlerts(ms).value)
    ensures CriticalAlerts(ms).Err? ==> MonitorsReply(params, listMonitors) == MonitorsError(MonitorsFailure + CriticalAlerts(ms).error)
  {
  }

  /** When the first request succeeds, its monitors alone decide the reply:
      their P1/P2 alerts, or the error raised while reading one of them. */
  lemma FirstResultIsUsed(params: Members, listMonitors: MonitorQuery -> Result<seq<Monitor>, string>, ms: seq<Monitor>)
    requires TagsString(Get(params, "tags", JArr([]))).Ok?
    requires listMonitors(FirstQuery(TagsString(Get(params, "tags", JArr([]))).value)) == Ok(ms)
    ensures CriticalAlerts(ms).Ok? ==> MonitorsReply(params, listMonitors) == MonitorsOk(|CriticalAlerts(ms).value|, CriticalAlerts(ms).value)
    ensures CriticalAlerts(ms).Err? ==> MonitorsReply(params, listMonitors) == MonitorsError(MonitorsFailure + CriticalAlerts(ms).error)
  {
  }

  function SampleMonitor(id: int, priority: int): Monitor {
    Monitor(Ok(Some(priority)), Ok(MonitorFields(id, "Monitor", "message", "Alert", Some([]), Some(Ok("2024-01-01T00:00:00")), "test")))
  }

  /** The loop taken one monitor further. */
  lemma CriticalAlertsSnoc(ms: seq<Monitor>, m: Monitor, acc: seq<Alert>, t: Option<Alert>)
    requires CriticalAlerts(ms) == Ok(acc) && Triage(m) == Ok(t)
    ensures CriticalAlerts(ms + [m]) == Ok(if t.Some? then acc + [t.value] else acc)
  {
    assert (ms + [m])[..|ms|] == ms;
  }

  /** Monitors of priority 1, 2 and 3 give two alerts, labelled P1 and P2, in that order. */
  lemma ThreePrioritiesGiveTwoAlerts()
    ensures CriticalAlerts([SampleMonitor(1, 1), SampleMonitor(2, 2), SampleMonitor(3, 3)]).Ok?
    ensures var alerts := CriticalAlerts([SampleMonitor(1, 1), SampleMonitor(2, 2), SampleMonitor(3, 3)]).value;
      |alerts| == 2 && alerts[0].id == 1 && alerts[0].priority == "P1" && alerts[1].id == 2 && alerts[1].priority == "P2"
  {
    var m1, m2, m3 := SampleMonitor(1, 1), SampleMonitor(2, 2), SampleMonitor(3, 3);
    assert IntString(1) == "1" && IntString(2) == "2";
    var a1 := Alert(1, "Monitor", "message", "P1", "Alert", [], Some("2024-01-01T00:00:00"), "test");
    var a2 := Alert(2, "Monitor", "message", "P2", "Alert", [], Some("2024-01-01T00:00:00"), "test");
    assert "P" + IntString(1) == "P1";
    assert RenderCreated(Some(Ok("2024-01-01T00:00:00"))) == Ok(Some("2024-01-01T00:00:00"));
    assert Triage(m1) == Ok(Some(a1));
    assert "P" + IntString(2) == "P2";
    assert Triage(m2) == Ok(Some(a2));
    assert Triage(m3) == Ok(None);
    CriticalAlertsSnoc([], m1, [], Some(a1));
    assert [] + [m1] == [m1] && [] + [a1] == [a1];
    CriticalAlertsSnoc([m1], m2, [a1], Some(a2));
    assert [m1] + [m2] == [m1, m2] && [a1] + [a2] == [a1, a2];
    CriticalAlertsSnoc([m1, m2], m3, [a1, a2], None);
    assert [m1, m2] + [m3] == [m1, m2, m3];
  }

  // ---------------------------------------------------------------- logs

  /** The two timestamps `_get_logs` computes, already rendered by `isoformat()`. */
  datatype Clock = Clock(now: string, thirtyMinutesAgo: string)

  /** The body of the `list_logs` request. */
  datatype LogsQuery = LogsQuery(query: Json, from: Json, to: Json, limit: Json)

  datatype LogsResult = LogsOk(logs: Json) | LogsError(message: string)

  const LogsFailure := "Failed to fetch logs: "

  /** The request `_get_logs` sends: caller values forwarded unchanged, the
      last 30 minutes, "status:error" and 100 where they are missing. */
  function LogsRequest(params: Members, clock: Clock): (q: LogsQuery)
    ensures Lookup(params, "query").None? ==> q.query == JStr("status:error")
    ensures Lookup(params, "limit").None? ==> q.limit == JInt(100)
    ensures Lookup(params, "from").None? ==> q.from == JStr(clock.thirtyMinutesAgo)
    ensures Lookup(params, "to").None? ==> q.to == JStr(clock.now)
    ensures Lookup(params, "query").Some? ==> q.query == Lookup(params, "query").value
    ensures Lookup(params, "limit").Some? ==> q.limit == Lookup(params, "limit").value
    ensures Lookup(params, "from").Some? ==> q.from == Lookup(params, "from").value
    ensures Lookup(params, "to").Some? ==> q.to == Lookup(params, "to").value
  {
    LogsQuery(
      Get(params, "query", JStr("status:error")),
      Get(params, "from", JStr(clock.thirtyMinutesAgo)),
      Get(params, "to", JStr(clock.now)),
      Get(params, "limit", JInt(100)))
  }

  /** `_get_logs`: one call, no fallback; a failure becomes an error envelope. */
  function LogsReply(params: Members, clock: Clock, listLogs: LogsQuery -> Result<Json, string>): (r: LogsResult)
    ensures r.LogsError? <==> listLogs(LogsRequest(params, clock)).Err?
    ensures r.LogsError? ==> r.message == LogsFailure + listLogs(LogsRequest(params, clock)).error
    ensures r.LogsOk? ==> r.logs == listLogs(LogsRequest(params, clock)).value
  {
    match listLogs(LogsRequest(params, clock))
    case Ok(logs) => LogsOk(logs)
    case Err(e) => LogsError(LogsFailure + e)
  }

  // ---------------------------------------------------------------- dispatch

  const MetricsMessage := "Metrics API integration not implemented yet"

  /** The Datadog calls the adapter makes, and the clock. */
  datatype Backend = Backend(
    listMonitors: MonitorQuery -> Result<seq<Monitor>, string>,
    listLogs: LogsQuery -> Result<Json, string>,
    clock: Clock)

  /** What `_run` returns: one of the envelopes, or a plain text. */
  datatype DatadogReply =
    | Monitors(monitors: MonitorsResult)
    | Logs(logs: LogsResult)
    | Info(status: string, message: string)
    | Text(text: string)

  datatype DatadogAction = GetMonitors | GetLogs | GetMetrics | UnknownAction(action: Json)

  /** `query_data.get("action", "get_monitors")`, classified. */
  function ActionOf(params: Members): (a: DatadogAction)
    ensures Lookup(params, "action").None? ==> a == GetMonitors
    ensures a == GetMonitors <==> Get(params, "action", JStr("get_monitors")) == JStr("get_monitors")
    ensures a == GetLogs <==> Lookup(params, "action") == Some(JStr("get_logs"))
    ensures a == GetMetrics <==> Lookup(params, "action") == Some(JStr("get_metrics"))
    ensures a.UnknownAction? ==> Lookup(params, "action") == Some(a.action)
    ensures a.UnknownAction? ==> a.action !in {JStr("get_monitors"), JStr("get_logs"), JStr("get_metrics")}
  {
    var action := Get(params, "action", JStr("get_monitors"));
    if action == JStr("get_monitors") then GetMonitors
    else if action == JStr("get_logs") then GetLogs
    else if action == JStr("get_metrics") then GetMetrics
    else UnknownAction(action)
  }

  /** A query that is not a JSON object is the action name itself. */
  lemma PlainQueryNamesTheAction(query: string, decode: string -> Result<Members, string>)
    requires !StartsWithBrace(query)
    ensures ParseInput(query, "action", decode) == Ok([("action", JStr(query))])
    ensures query == "get_monitors" <==> ActionOf([("action", JStr(query))]) == GetMonitors
    ensures query !in {"get_monitors", "get_logs", "get_metrics"} ==>
      ActionOf([("action", JStr(query))]) == UnknownAction(JStr(query))
  {
  }

  /** `DatadogMCPClientTool._run`. */
  method Run(query: string, decode: string -> Result<Members, string>, backend: Backend) returns (r: DatadogReply)
    ensures ParseInput(query, "action", decode).Err? ==>
      r == Text("Error executing Datadog query: " + ParseInput(query, "action", decode).error)
    ensures ParseInput(query, "action", decode).Ok? ==>
      var params := ParseInput(query, "action", decode).value;
      match ActionOf(params)
      case GetMonitors => r == Monitors(MonitorsReply(params, backend.listMonitors))
      case GetLogs => r == Logs(LogsReply(params, backend.clock, backend.listLogs))
      case GetMetrics => r == Info("info", MetricsMessage)
      case UnknownAction(a) => r == Text("Unknown action: " + PyStr(a))
  {
    var parsed := ParseInput(query, "action", decode);
    if parsed.Err? {
      return Text("Error executing Datadog query: " + parsed.error);
    }
    var params := parsed.value;
    match ActionOf(params)
    case GetMonitors =>
      var monitors, _ := GetActiveMonitors(params, backend.listMonitors);
      r := Monitors(monitors);
    case GetLogs =>
      r := Logs(LogsReply(params, backend.clock, backend.listLogs));
    case GetMetrics =>
      r := Info("info", MetricsMessage);
    case UnknownAction(a) =>
      r := Text("Unknown action: " + PyStr(a));
  }
}
