/** The cluster adapter (`KubernetesMCPClientTool`): the configuration check of
    its constructor, the dispatch of `_run`, and the projections it makes of
    pods, logs, events, pod descriptions and deployments. The cluster API is a
    set of parameters: each call returns a value or the text of the exception
    it raised. Timestamps are the strings `isoformat()` rendered. */
module Kubernetes {
  import opened Wrappers
  import opened PyValue

  const ToolName := "kubernetes_client"

  /** Where the client configuration came from. */
  datatype ConfigSource = InCluster | KubeConfig

  datatype KubernetesTool = KubernetesTool(source: ConfigSource)

  const InitFailure := "Failed to initialize Kubernetes client: "

  /** The constructor: the in-cluster configuration, else the local kubeconfig;
      only the failure of the second is reported. */
  function NewKubernetesTool(inCluster: Result<(), string>, kubeConfig: Result<(), string>): (r: Result<KubernetesTool, Exception>)
    ensures r.Ok? <==> inCluster.Ok? || kubeConfig.Ok?
    ensures r.Ok? ==> (r.value.source == InCluster <==> inCluster.Ok?)
    ensures r.Err? ==> r.error == ValueError(InitFailure + kubeConfig.error)
  {
    if inCluster.Ok? then Ok(KubernetesTool(InCluster))
    else if kubeConfig.Ok? then Ok(KubernetesTool(KubeConfig))
    else Err(ValueError(InitFailure + kubeConfig.error))
  }

  // ---------------------------------------------------------------- objects

  datatype ObjectMeta = ObjectMeta(
    name: string,
    namespace: string,
    labels: Option<map<string, string>>,
    annotations: Option<map<string, string>>,
    created: Option<string>)

  /** A container of the pod spec; `resources` is what `to_dict()` gives. */
  datatype Container = Container(name: string, image: Option<string>, resources: Option<Json>)

  datatype PodSpec = PodSpec(nodeName: Option<string>, restartPolicy: Option<string>, containers: seq<Container>)

  /** A pod condition; `kind` is its `type`. */
  datatype Condition = Condition(kind: string, status: string, reason: Option<string>, message: Option<string>)

  /** A container status; `state` is what `to_dict()` gives. */
  datatype ContainerStatus = ContainerStatus(name: string, ready: bool, restartCount: nat, state: Option<Json>)

  datatype PodStatus = PodStatus(
    phase: Option<string>,
    podIp: Option<string>,
    conditions: Option<seq<Condition>>,
    containerStatuses: Option<seq<ContainerStatus>>)

  datatype Pod = Pod(metadata: ObjectMeta, spec: PodSpec, status: PodStatus)

  /** `x or {}` for an optional label or annotation map. */
  function MapOrEmpty(m: Option<map<string, string>>): map<string, string> {
    m.GetOr(map[])
  }

  /** What each operation serialises: its payload, or `{"status": "error", "message": ...}`. */
  datatype Envelope<T> = Success(value: T) | Failure(message: string)

  // ---------------------------------------------------------------- readiness

  /** The position of the first condition of type "Ready". */
  function FirstReady(cs: seq<Condition>): (r: Option<nat>)
    ensures r.None? <==> forall j :: 0 <= j < |cs| ==> cs[j].kind != "Ready"
    ensures r.Some? ==> r.value < |cs| && cs[r.value].kind == "Ready"
    ensures r.Some? ==> forall j :: 0 <= j < r.value ==> cs[j].kind != "Ready"
  {
    if cs == [] then None
    else if cs[0].kind == "Ready" then Some(0)
    else
      var rest := FirstReady(cs[1..]);
      if rest.Some? then Some(rest.value + 1) else None
  }

  /** A pod is ready when its first "Ready" condition has status "True". */
  predicate PodReady(conditions: Option<seq<Condition>>) {
    conditions.Some? && FirstReady(conditions.value).Some? && conditions.value[FirstReady(conditions.value).value].status == "True"
  }

  /** Readiness stated without the search: some "Ready" condition says "True"
      and no "Ready" condition comes before it. */
  lemma PodReadyIff(cs: seq<Condition>)
    ensures PodReady(Some(cs)) <==>
      exists i :: 0 <= i < |cs| && cs[i].kind == "Ready" && cs[i].status == "True" && forall j :: 0 <= j < i ==> cs[j].kind != "Ready"
  {
    if PodReady(Some(cs)) {
      var i := FirstReady(cs).value;
      assert cs[i].kind == "Ready" && cs[i].status == "True" && forall j :: 0 <= j < i ==> cs[j].kind != "Ready";
    }
  }

  /** `_is_pod_ready`: the scan over the conditions with its early return. */
  method IsPodReady(pod: Pod) returns (ready: bool)
    ensures ready == PodReady(pod.status.conditions)
    ensures pod.status.conditions.None? || pod.status.conditions == Some([]) ==> !ready
  {
    if pod.status.conditions.None? || pod.status.conditions.value == [] {
      return false;
    }
    var cs := pod.status.conditions.value;
    var i := 0;
    while i < |cs|
      invariant 0 <= i <= |cs|
      invariant forall j :: 0 <= j < i ==> cs[j].kind != "Ready"
    {
      if cs[i].kind == "Ready" {
        return cs[i].status == "True";
      }
      i := i + 1;
    }
    return false;
  }

  // ---------------------------------------------------------------- restarts

  /** `sum(c.restart_count for c in statuses)`. */
  function RestartTotal(statuses: seq<ContainerStatus>): nat {
    if statuses == [] then 0 else statuses[0].restartCount + RestartTotal(statuses[1..])
  }

  /** The sum over a concatenation is the sum of the sums. */
  lemma {:induction false} RestartTotalAppend(a: seq<ContainerStatus>, b: seq<ContainerStatus>)
    ensures RestartTotal(a + b) == RestartTotal(a) + RestartTotal(b)
  {
    if a != [] {
      assert (a + b)[1..] == a[1..] + b;
      RestartTotalAppend(a[1..], b);
    } else {
      assert a + b == b;
    }
  }

  /** Every container's restarts are counted in the total. */
  lemma {:induction false} RestartTotalBoundsEach(statuses: seq<ContainerStatus>, k: nat)
    requires k < |statuses|
    ensures statuses[k].restartCount <= RestartTotal(statuses)
  {
    if k > 0 {
      RestartTotalBoundsEach(statuses[1..], k - 1);
    }
  }

  /** The total is zero exactly when no container has restarted. */
  lemma {:induction false} RestartTotalZero(statuses: seq<ContainerStatus>)
    ensures RestartTotal(statuses) == 0 <==> forall k :: 0 <= k < |statuses| ==> statuses[k].restartCount == 0
  {
    if statuses != [] {
      RestartTotalZero(statuses[1..]);
      assert forall k :: 1 <= k < |statuses| ==> statuses[1..][k - 1] == statuses[k];
    }
  }

  // ---------------------------------------------------------------- pods

  /** The arguments of `list_namespaced_pod`. */
  datatype PodsQuery = PodsQuery(namespace: Json, labelSelector: Json)

  /** `namespace` and `label_selector` as `_get_pods_info` reads them. */
  function PodsRequest(params: Members): (q: PodsQuery)
    ensures Lookup(params, "namespace").None? ==> q.namespace == JStr("default")
    ensures Lookup(params, "namespace").Some? ==> q.namespace == Lookup(params, "namespace").value
    ensures Lookup(params, "label_selector").None? ==> q.labelSelector == JStr("")
    ensures Lookup(params, "label_selector").Some? ==> q.labelSelector == Lookup(params, "label_selector").value
  {
    PodsQuery(Get(params, "namespace", JStr("default")), Get(params, "label_selector", JStr("")))
  }

  /** One entry of `pods`. */
  datatype PodInfo = PodInfo(
    name: string,
    namespace: string,
    phase: Option<string>,
    restartCount: nat,
    ready: bool,
    labels: map<string, string>,
    created: Option<string>,
    node: Option<string>,
    containers: seq<string>)

  function ContainerNames(cs: seq<Container>): (names: seq<string>)
    ensures |names| == |cs| && forall k :: 0 <= k < |cs| ==> names[k] == cs[k].name
  {
    seq(|cs|, k requires 0 <= k < |cs| => cs[k].name)
  }

  /** The record `_get_pods_info` builds for one pod, given its readiness. */
  function PodInfoOf(pod: Pod, ready: bool): PodInfo {
    PodInfo(
      pod.metadata.name,
      pod.metadata.namespace,
      pod.status.phase,
      RestartTotal(pod.status.containerStatuses.GetOr([])),
      ready,
      MapOrEmpty(pod.metadata.labels),
      pod.metadata.created,
      pod.spec.nodeName,
      ContainerNames(pod.spec.containers))
  }

  function PodInfos(pods: seq<Pod>): seq<PodInfo> {
    seq(|pods|, k requires 0 <= k < |pods| => PodInfoOf(pods[k], PodReady(pods[k].status.conditions)))
  }

  datatype PodsListing = PodsListing(namespace: Json, count: nat, pods: seq<PodInfo>)

  /** `_get_pods_info` as a value: one record per pod, in the order the API listed them. */
  function PodsReply(params: Members, listPods: PodsQuery -> Result<seq<Pod>, string>): (r: Envelope<PodsListing>)
    ensures r.Failure? <==> listPods(PodsRequest(params)).Err?
    ensures r.Failure? ==> r.message == "Failed to get pods: " + listPods(PodsRequest(params)).error
    ensures r.Success? ==> r.value.namespace == PodsRequest(params).namespace
    ensures r.Success? ==> r.value.count == |r.value.pods| == |listPods(PodsRequest(params)).value|
    ensures r.Success? ==> forall k :: 0 <= k < |r.value.pods| ==>
      var pod := listPods(PodsRequest(params)).value[k];
      r.value.pods[k].name == pod.metadata.name
      && r.value.pods[k].ready == PodReady(pod.status.conditions)
      && r.value.pods[k].restartCount == RestartTotal(pod.status.containerStatuses.GetOr([]))
      && r.value.pods[k].containers == ContainerNames(pod.spec.containers)
    ensures r.Success? ==> forall k :: 0 <= k < |r.value.pods| ==>
      var pod := listPods(PodsRequest(params)).value[k];
      r.value.pods[k].namespace == pod.metadata.namespace
      && r.value.pods[k].phase == pod.status.phase
      && r.value.pods[k].labels == MapOrEmpty(pod.metadata.labels)
      && r.value.pods[k].created == pod.metadata.created
      && r.value.pods[k].node == pod.spec.nodeName
  {
    var q := PodsRequest(params);
    match listPods(q)
    case Err(e) => Failure("Failed to get pods: " + e)
    case Ok(pods) =>
      var info := PodInfos(pods);
      Success(PodsListing(q.namespace, |info|, info))
  }

  /** `_get_pods_info`: the loop appending one record per pod. */
  method GetPodsInfo(params: Members, listPods: PodsQuery -> Result<seq<Pod>, string>) returns (r: Envelope<PodsListing>)
    ensures r == PodsReply(params, listPods)
  {
    var q := PodsRequest(params);
    var pods := listPods(q);
    if pods.Err? {
      return Failure("Failed to get pods: " + pods.error);
    }
    var items := pods.value;
    var info: seq<PodInfo> := [];
    var i := 0;
    while i < |items|
      invariant 0 <= i <= |items|
      invariant |info| == i
      invariant forall k :: 0 <= k < i ==> info[k] == PodInfoOf(items[k], PodReady(items[k].status.conditions))
    {
      var ready := IsPodReady(items[i]);
      info := info + [PodInfoOf(items[i], ready)];
      i := i + 1;
    }
    assert info == PodInfos(items);
    r := Success(PodsListing(q.namespace, |info|, info));
  }

  // ---------------------------------------------------------------- logs

  /** The arguments of `read_namespaced_pod_log`. */
  datatype LogRequest = LogRequest(name: Json, namespace: Json, container: Json, tailLines: Json, timestamps: bool)

  datatype PodLogs = PodLogs(pod: Json, namespace: Json, container: Json, logs: string)

  const PodNameRequired := "pod_name is required"

  /** `_get_pod_logs`: without a truthy `pod_name` there is no request at all. */
  function PodLogsReply(params: Members, readLog: LogRequest -> Result<string, string>): (r: Envelope<PodLogs>)
    ensures !Truthy(Get(params, "pod_name", JNull)) ==> r == Failure(PodNameRequired)
    ensures Truthy(Get(params, "pod_name", JNull)) ==>
      var req := LogRequest(Lookup(params, "pod_name").value, Get(params, "namespace", JStr("default")),
                            Get(params, "container", JNull), Get(params, "lines", JInt(100)), true);
      (r.Failure? <==> readLog(req).Err?)
      && (r.Failure? ==> r.message == "Failed to get pod logs: " + readLog(req).error)
      && (r.Success? ==> r.value == PodLogs(req.name, req.namespace, req.container, readLog(req).value))
  {
    var podName := Get(params, "pod_name", JNull);
    var namespace := Get(params, "namespace", JStr("default"));
    var container := Get(params, "container", JNull);
    var lines := Get(params, "lines", JInt(100));
    if !Truthy(podName) then Failure(PodNameRequired)
    else
      match readLog(LogRequest(podName, namespace, container, lines, true))
      case Err(e) => Failure("Failed to get pod logs: " + e)
      case Ok(logs) => Success(PodLogs(podName, namespace, container, logs))
  }

  /** Missing, empty or null pod names are all refused the same way. */
  lemma MissingPodNameNeverReadsLogs(params: Members, readLog: LogRequest -> Result<string, string>, other: LogRequest -> Result<string, string>)
    requires Lookup(params, "pod_name") in {None, Some(JNull), Some(JStr(""))}
    ensures PodLogsReply(params, readLog) == PodLogsReply(params, other) == Failure(PodNameRequired)
  {
  }

  // ---------------------------------------------------------------- events

  datatype ObjectReference = ObjectReference(kind: Option<string>, name: Option<string>, namespace: Option<string>)

  datatype Event = Event(
    metadata: ObjectMeta,
    reason: Option<string>,
    message: Option<string>,
    kind: Option<string>,
    count: Option<int>,
    firstTimestamp: Option<string>,
    lastTimestamp: Option<string>,
    involvedObject: Option<ObjectReference>)

  /** One entry of `events`; `kind` is the event's `type`. */
  datatype EventInfo = EventInfo(
    name: string,
    namespace: string,
    reason: Option<string>,
    message: Option<string>,
    kind: Option<string>,
    count: Option<int>,
    firstTimestamp: Option<string>,
    lastTimestamp: Option<string>,
    involvedObject: Option<ObjectReference>)

  function EventInfoOf(e: Event): EventInfo {
    EventInfo(e.metadata.name, e.metadata.namespace, e.reason, e.message, e.kind, e.count,
              e.firstTimestamp, e.lastTimestamp, e.involvedObject)
  }

  function EventInfos(events: seq<Event>): seq<EventInfo> {
    seq(|events|, k requires 0 <= k < |events| => EventInfoOf(events[k]))
  }

  datatype EventsListing = EventsListing(namespace: Json, count: nat, events: seq<EventInfo>)

  /** `_get_events` as a value. */
  function EventsReply(params: Members, listEvents: Json -> Result<seq<Event>, string>): (r: Envelope<EventsListing>)
    ensures var ns := Get(params, "namespace", JStr("default"));
      (r.Failure? <==> listEvents(ns).Err?)
      && (r.Failure? ==> r.message == "Failed to get events: " + listEvents(ns).error)
      && (r.Success? ==> r.value.namespace == ns && r.value.count == |r.value.events| == |listEvents(ns).value|)
      && (r.Success? ==> forall k :: 0 <= k < |r.value.events| ==>
            r.value.events[k].name == listEvents(ns).value[k].metadata.name
            && r.value.events[k].involvedObject == listEvents(ns).value[k].involvedObject)
    ensures var ns := Get(params, "namespace", JStr("default"));
      r.Success? ==> forall k :: 0 <= k < |r.value.events| ==>
        var e := listEvents(ns).value[k];
        r.value.events[k].namespace == e.metadata.namespace
        && r.value.events[k].reason == e.reason && r.value.events[k].message == e.message
        && r.value.events[k].kind == e.kind && r.value.events[k].count == e.count
        && r.value.events[k].firstTimestamp == e.firstTimestamp
        && r.value.events[k].lastTimestamp == e.lastTimestamp
  {
    var ns := Get(params, "namespace", JStr("default"));
    match listEvents(ns)
    case Err(e) => Failure("Failed to get events: " + e)
    case Ok(events) =>
      var info := EventInfos(events);
      Success(EventsListing(ns, |info|, info))
  }

  /** `_get_events`: the loop appending one record per event. */
  method GetEvents(params: Members, listEvents: Json -> Result<seq<Event>, string>) returns (r: Envelope<EventsListing>)
    ensures r == EventsReply(params, listEvents)
  {
    var ns := Get(params, "namespace", JStr("default"));
    var events := listEvents(ns);
    if events.Err? {
      return Failure("Failed to get events: " + events.error);
    }
    var items := events.value;
    var info: seq<EventInfo> := [];
    var i := 0;
    while i < |items|
      invariant 0 <= i <= |items|
      invariant |info| == i
      invariant forall k :: 0 <= k < i ==> info[k] == EventInfoOf(items[k])
    {
      info := info + [EventInfoOf(items[i])];
      i := i + 1;
    }
    assert info == EventInfos(items);
    r := Success(EventsListing(ns, |info|, info));
  }

  // ---------------------------------------------------------------- describe

  /** The arguments of `read_namespaced_pod`. */
  datatype PodRef = PodRef(name: Json, namespace: Json)

  datatype MetadataDetails = MetadataDetails(
    name: string,
    namespace: string,
    labels: map<string, string>,
    annotations: map<string, string>,
    created: Option<string>)

  datatype SpecDetails = SpecDetails(nodeName: Option<string>, restartPolicy: Option<string>, containers: seq<Container>)

  datatype StatusDetails = StatusDetails(
    phase: Option<string>,
    podIp: Option<string>,
    conditions: seq<Condition>,
    containerStatuses: seq<ContainerStatus>)

  /** `pod_details`. */
  datatype PodDetails = PodDetails(metadata: MetadataDetails, spec: SpecDetails, status: StatusDetails)

  function PodDetailsOf(pod: Pod): (d: PodDetails)
    ensures d.status.conditions == [] <==> pod.status.conditions.None? || pod.status.conditions == Some([])
    ensures pod.status.conditions.Some? ==> d.status.conditions == pod.status.conditions.value
    ensures pod.status.containerStatuses.Some? ==> d.status.containerStatuses == pod.status.containerStatuses.value
    ensures pod.status.containerStatuses.None? ==> d.status.containerStatuses == []
    ensures pod.metadata.labels.None? ==> d.metadata.labels == map[]
    ensures pod.metadata.annotations.None? ==> d.metadata.annotations == map[]
    ensures pod.metadata.labels.Some? ==> d.metadata.labels == pod.metadata.labels.value
    ensures pod.metadata.annotations.Some? ==> d.metadata.annotations == pod.metadata.annotations.value
    ensures d.metadata.name == pod.metadata.name && d.metadata.namespace == pod.metadata.namespace
    ensures d.metadata.created == pod.metadata.created
    ensures d.spec == SpecDetails(pod.spec.nodeName, pod.spec.restartPolicy, pod.spec.containers)
    ensures d.status.phase == pod.status.phase && d.status.podIp == pod.status.podIp
  {
    PodDetails(
      MetadataDetails(pod.metadata.name, pod.metadata.namespace, MapOrEmpty(pod.metadata.labels),
                      MapOrEmpty(pod.metadata.annotations), pod.metadata.created),
      SpecDetails(pod.spec.nodeName, pod.spec.restartPolicy, pod.spec.containers),
      StatusDetails(pod.status.phase, pod.status.podIp, pod.status.conditions.GetOr([]),
                    pod.status.containerStatuses.GetOr([])))
  }

  /** `_describe_pod`: the same guard as the log request, then one read. */
  function DescribeReply(params: Members, readPod: PodRef -> Result<Pod, string>): (r: Envelope<PodDetails>)
    ensures !Truthy(Get(params, "pod_name", JNull)) ==> r == Failure(PodNameRequired)
    ensures Truthy(Get(params, "pod_name", JNull)) ==>
      var ref := PodRef(Lookup(params, "pod_name").value, Get(params, "namespace", JStr("default")));
      (r.Failure? <==> readPod(ref).Err?)
      && (r.Failure? ==> r.message == "Failed to describe pod: " + readPod(ref).error)
      && (r.Success? ==> r.value == PodDetailsOf(readPod(ref).value))
  {
    var podName := Get(params, "pod_name", JNull);
    var namespace := Get(params, "namespace", JStr("default"));
    if !Truthy(podName) then Failure(PodNameRequired)
    else
      match readPod(PodRef(podName, namespace))
      case Err(e) => Failure("Failed to describe pod: " + e)
      case Ok(pod) => Success(PodDetailsOf(pod))
  }

  // ---------------------------------------------------------------- deployments

  datatype Deployment = Deployment(
    metadata: ObjectMeta,
    replicas: Option<int>,
    readyReplicas: Option<int>,
    availableReplicas: Option<int>)

  /** `n or 0` for an optional count. */
  function OrZero(n: Option<int>): (r: int)
    ensures r == 0 <==> n.None? || n == Some(0)
    ensures r != 0 ==> n == Some(r)
  {
    if n.None? then 0 else n.value
  }

  datatype DeploymentInfo = DeploymentInfo(
    name: string,
    namespace: string,
    replicas: Option<int>,
    readyReplicas: int,
    availableReplicas: int,
    labels: map<string, string>,
    created: Option<string>)

  function DeploymentInfoOf(d: Deployment): DeploymentInfo {
    DeploymentInfo(d.metadata.name, d.metadata.namespace, d.replicas, OrZero(d.readyReplicas),
                   OrZero(d.availableReplicas), MapOrEmpty(d.metadata.labels), d.metadata.created)
  }

  function DeploymentInfos(ds: seq<Deployment>): seq<DeploymentInfo> {
    seq(|ds|, k requires 0 <= k < |ds| => DeploymentInfoOf(ds[k]))
  }

  datatype DeploymentsListing = DeploymentsListing(namespace: Json, count: nat, deployments: seq<DeploymentInfo>)

  /** `_get_deployments` as a value: missing ready/available counts read 0,
      the desired count is passed through as it is. */
  function DeploymentsReply(params: Members, listDeployments: Json -> Result<seq<Deployment>, string>): (r: Envelope<DeploymentsListing>)
    ensures var ns := Get(params, "namespace", JStr("default"));
      (r.Failure? <==> listDeployments(ns).Err?)
      && (r.Failure? ==> r.message == "Failed to get deployments: " + listDeployments(ns).error)
      && (r.Success? ==> r.value.namespace == ns && r.value.count == |r.value.deployments| == |listDeployments(ns).value|)
      && (r.Success? ==> forall k :: 0 <= k < |r.value.deployments| ==>
            var d := listDeployments(ns).value[k];
            r.value.deployments[k].name == d.metadata.name
            && r.value.deployments[k].replicas == d.replicas
            && (d.readyReplicas.None? ==> r.value.deployments[k].readyReplicas == 0)
            && (d.availableReplicas.None? ==> r.value.deployments[k].availableReplicas == 0)
            && (d.readyReplicas.Some? ==> r.value.deployments[k].readyReplicas == d.readyReplicas.value)
            && (d.availableReplicas.Some? ==> r.value.deployments[k].availableReplicas == d.availableReplicas.value))
    ensures var ns := Get(params, "namespace", JStr("default"));
      r.Success? ==> forall k :: 0 <= k < |r.value.deployments| ==>
        var d := listDeployments(ns).value[k];
        r.value.deployments[k].namespace == d.metadata.namespace
        && r.value.deployments[k].labels == MapOrEmpty(d.metadata.labels)
        && r.value.deployments[k].created == d.metadata.created
  {
    var ns := Get(params, "namespace", JStr("default"));
    match listDeployments(ns)
    case Err(e) => Failure("Failed to get deployments: " + e)
    case Ok(ds) =>
      var info := DeploymentInfos(ds);
      Success(DeploymentsListing(ns, |info|, info))
  }

  /** `_get_deployments`: the loop appending one record per deployment. */
  method GetDeployments(params: Members, listDeployments: Json -> Result<seq<Deployment>, string>) returns (r: Envelope<DeploymentsListing>)
    ensures r == DeploymentsReply(params, listDeployments)
  {
    var ns := Get(params, "namespace", JStr("default"));
    var ds := listDeployments(ns);
    if ds.Err? {
      return Failure("Failed to get deployments: " + ds.error);
    }
    var items := ds.value;
    var info: seq<DeploymentInfo> := [];
    var i := 0;
    while i < |items|
      invariant 0 <= i <= |items|
      invariant |info| == i
      invariant forall k :: 0 <= k < i ==> info[k] == DeploymentInfoOf(items[k])
    {
      info := info + [DeploymentInfoOf(items[i])];
      i := i + 1;
    }
    assert info == DeploymentInfos(items);
    r := Success(DeploymentsListing(ns, |info|, info));
  }

  // ---------------------------------------------------------------- dispatch

  /** The cluster calls the adapter makes. */
  datatype Cluster = Cluster(
    listPods: PodsQuery -> Result<seq<Pod>, string>,
    readLog: LogRequest -> Result<string, string>,
    listEvents: Json -> Result<seq<Event>, string>,
    readPod: PodRef -> Result<Pod, string>,
    listDeployments: Json -> Result<seq<Deployment>, string>)

  /** What `_run` returns. */
  datatype KubernetesReply =
    | Pods(pods: Envelope<PodsListing>)
    | Logs(logs: Envelope<PodLogs>)
    | Events(events: Envelope<EventsListing>)
    | Described(details: Envelope<PodDetails>)
    | Deployments(deployments: Envelope<DeploymentsListing>)
    | Text(text: string)

  datatype KubernetesAction = GetPods | GetLogs | GetEventsAction | DescribePod | GetDeploymentsAction | UnknownAction(action: Json)

  const KnownActions: set<Json> := {JStr("get_pods"), JStr("get_logs"), JStr("get_events"), JStr("describe_pod"), JStr("get_deployments")}

  /** `command_data.get("action", "get_pods")`, classified. */
  function ActionOf(params: Members): (a: KubernetesAction)
    ensures Lookup(params, "action").None? ==> a == GetPods
    ensures a == GetPods <==> Get(params, "action", JStr("get_pods")) == JStr("get_pods")
    ensures a == GetLogs <==> Lookup(params, "action") == Some(JStr("get_logs"))
    ensures a == GetEventsAction <==> Lookup(params, "action") == Some(JStr("get_events"))
    ensures a == DescribePod <==> Lookup(params, "action") == Some(JStr("describe_pod"))
    ensures a == GetDeploymentsAction <==> Lookup(params, "action") == Some(JStr("get_deployments"))
    ensures a.UnknownAction? ==> Lookup(params, "action") == Some(a.action)
    ensures a.UnknownAction? ==> a.action !in KnownActions
  {
    var action := Get(params, "action", JStr("get_pods"));
    if action == JStr("get_pods") then GetPods
    else if action == JStr("get_logs") then GetLogs
    else if action == JStr("get_events") then GetEventsAction
    else if action == JStr("describe_pod") then DescribePod
    else if action == JStr("get_deployments") then GetDeploymentsAction
    else UnknownAction(action)
  }

  /** `KubernetesMCPClientTool._run`. */
  method Run(command: string, decode: string -> Result<Members, string>, cluster: Cluster) returns (r: KubernetesReply)
    ensures ParseInput(command, "action", decode).Err? ==>
      r == Text("Error executing Kubernetes command: " + ParseInput(command, "action", decode).error)
    ensures ParseInput(command, "action", decode).Ok? ==>
      var params := ParseInput(command, "action", decode).value;
      match ActionOf(params)
      case GetPods => r == Pods(PodsReply(params, cluster.listPods))
      case GetLogs => r == Logs(PodLogsReply(params, cluster.readLog))
      case GetEventsAction => r == Events(EventsReply(params, cluster.listEvents))
      case DescribePod => r == Described(DescribeReply(params, cluster.readPod))
      case GetDeploymentsAction => r == Deployments(DeploymentsReply(params, cluster.listDeployments))
      case UnknownAction(a) => r == Text("Unknown action: " + PyStr(a))
  {
    var parsed := ParseInput(command, "action", decode);
    if parsed.Err? {
      return Text("Error executing Kubernetes command: " + parsed.error);
    }
    var params := parsed.value;
    match ActionOf(params)
    case GetPods =>
      var pods := GetPodsInfo(params, cluster.listPods);
      r := Pods(pods);
    case GetLogs =>
      r := Logs(PodLogsReply(params, cluster.readLog));
    case GetEventsAction =>
      var events := GetEvents(params, cluster.listEvents);
      r := Events(events);
    case DescribePod =>
      r := Described(DescribeReply(params, cluster.readPod));
    case GetDeploymentsAction =>
      var deployments := GetDeployments(params, cluster.listDeployments);
      r := Deployments(deployments);
    case UnknownAction(a) =>
      r := Text("Unknown action: " + PyStr(a));
  }
}
