/** The orchestrator (`SRECopilot`): the tool registry built in a fixed order,
    the tool each agent may use, the four tasks and the context they read, the
    crew configuration, the incident kickoff input and the status report. The
    agents' language-model work and the crew's execution engine are parameters. */
module Copilot {
  import opened Wrappers
  import opened Environment
  import opened PyValue
  import opened LlmFactory
  import Datadog
  import Kubernetes
  import Notifiers

  // ---------------------------------------------------------------- tools

  datatype ToolKind = DatadogKind | KubernetesKind | SlackKind | TeamsKind

  /** The order `_initialize_tools` tries the adapters in. */
  const AttemptOrder := [DatadogKind, KubernetesKind, SlackKind, TeamsKind]

  /** An adapter instance, by class. */
  datatype Tool =
    | DatadogClient(datadog: Datadog.DatadogTool)
    | KubernetesClient(kubernetes: Kubernetes.KubernetesTool)
    | SlackNotifier(slack: Notifiers.SlackTool)
    | TeamsNotifier(teams: Notifiers.TeamsTool)
  {
    function Kind(): ToolKind {
      match this
      case DatadogClient(_) => DatadogKind
      case KubernetesClient(_) => KubernetesKind
      case SlackNotifier(_) => SlackKind
      case TeamsNotifier(_) => TeamsKind
    }

    /** The tool's `name` attribute. */
    function Name(): string {
      KindName(Kind())
    }
  }

  function KindName(kind: ToolKind): string {
    match kind
    case DatadogKind => Datadog.ToolName
    case KubernetesKind => Kubernetes.ToolName
    case SlackKind => Notifiers.SlackToolName
    case TeamsKind => Notifiers.TeamsToolName
  }

  /** The names tell the adapters apart. */
  lemma KindNamesDistinct(a: ToolKind, b: ToolKind)
    ensures KindName(a) == KindName(b) <==> a == b
  {
    assert Datadog.ToolName[0] == 'd' && Kubernetes.ToolName[0] == 'k';
    assert Notifiers.SlackToolName[0] == 's' && Notifiers.TeamsToolName[0] == 't';
  }

  /** Each constructor builds an adapter of its own class. */
  predicate BuildsOwnKind(construct: ToolKind -> Result<Tool, Exception>) {
    forall k :: construct(k).Ok? ==> construct(k).value.Kind() == k
  }

  /** The four constructors as the model defines them: the environment
      checks, and the two cluster configuration attempts. */
  function Construct(env: Env, inCluster: Result<(), string>, kubeConfig: Result<(), string>, kind: ToolKind): (r: Result<Tool, Exception>)
    ensures r.Ok? ==> r.value.Kind() == kind
    ensures r.Err? ==> r.error.ValueError?
    ensures kind == DatadogKind ==> (r.Ok? <==> IsSet(env, "DATADOG_API_KEY") && IsSet(env, "DATADOG_APP_KEY"))
    ensures kind == KubernetesKind ==> (r.Ok? <==> inCluster.Ok? || kubeConfig.Ok?)
    ensures kind == SlackKind ==> (r.Ok? <==> IsSet(env, "SLACK_BOT_TOKEN"))
    ensures kind == TeamsKind ==> (r.Ok? <==> IsSet(env, "TEAMS_WEBHOOK_URL"))
  {
    match kind
    case DatadogKind =>
      var t :- Datadog.NewDatadogTool(env);
      Ok(DatadogClient(t))
    case KubernetesKind =>
      var t :- Kubernetes.NewKubernetesTool(inCluster, kubeConfig);
      Ok(KubernetesClient(t))
    case SlackKind =>
      var t :- Notifiers.NewSlackTool(env);
      Ok(SlackNotifier(t))
    case TeamsKind =>
      var t :- Notifiers.NewTeamsTool(env);
      Ok(TeamsNotifier(t))
  }

  /** One `try: tools.append(X()) except ValueError:` block. */
  function Step(tools: seq<Tool>, outcome: Result<Tool, Exception>): Result<seq<Tool>, Exception> {
    match outcome
    case Ok(t) => Ok(tools + [t])
    case Err(ValueError(_)) => Ok(tools)
    case Err(e) => Err(e)
  }

  /** A constructor outcome that the registry does not absorb. */
  predicate Escapes(outcome: Result<Tool, Exception>) {
    outcome.Err? && !outcome.error.ValueError?
  }

  /** The registry after trying `kinds` in order. */
  function Registry(kinds: seq<ToolKind>, construct: ToolKind -> Result<Tool, Exception>): (r: Result<seq<Tool>, Exception>)
    ensures r.Err? <==> exists i :: 0 <= i < |kinds| && Escapes(construct(kinds[i]))
    ensures r.Ok? ==> |r.value| <= |kinds|
  {
    if kinds == [] then Ok([])
    else
      var init := kinds[..|kinds| - 1];
      assert forall i :: 0 <= i < |init| ==> init[i] == kinds[i];
      var tools :- Registry(init, construct);
      Step(tools, construct(kinds[|kinds| - 1]))
  }

  /** `a` is `b` with some elements left out. */
  predicate IsSubsequence<T(==)>(a: seq<T>, b: seq<T>)
    decreases |b|
  {
    if a == [] then true
    else if b == [] then false
    else if a[|a| - 1] == b[|b| - 1] then IsSubsequence(a[..|a| - 1], b[..|b| - 1])
    else IsSubsequence(a, b[..|b| - 1])
  }

  /** Dropping the last element of a subsequence keeps it a subsequence. */
  lemma {:induction false} SubsequenceDropLast<T>(a: seq<T>, b: seq<T>)
    requires a != [] && IsSubsequence(a, b)
    ensures IsSubsequence(a[..|a| - 1], b)
    decreases |b|, 0
  {
    var b' := b[..|b| - 1];
    if a[|a| - 1] == b[|b| - 1] {
      SubsequenceAppend(a[..|a| - 1], b', b[|b| - 1]);
    } else {
      SubsequenceDropLast(a, b');
      SubsequenceAppend(a[..|a| - 1], b', b[|b| - 1]);
    }
    assert b' + [b[|b| - 1]] == b;
  }

  /** A subsequence of `b` is a subsequence of any extension of `b`. */
  lemma {:induction false} SubsequenceAppend<T>(a: seq<T>, b: seq<T>, x: T)
    requires IsSubsequence(a, b)
    ensures IsSubsequence(a, b + [x])
    decreases |b|, 1
  {
    assert (b + [x])[..|b|] == b;
    if a != [] && a[|a| - 1] == x {
      SubsequenceDropLast(a, b);
    }
  }

  lemma SubsequenceExtend<T>(a: seq<T>, b: seq<T>, x: T)
    requires IsSubsequence(a, b)
    ensures IsSubsequence(a, b + [x])
    ensures IsSubsequence(a + [x], b + [x])
  {
    SubsequenceAppend(a, b, x);
    assert (b + [x])[..|b|] == b;
    assert (a + [x])[..|a|] == a;
  }

  function KindsOf(tools: seq<Tool>): (ks: seq<ToolKind>)
    ensures |ks| == |tools| && forall k :: 0 <= k < |tools| ==> ks[k] == tools[k].Kind()
  {
    seq(|tools|, k requires 0 <= k < |tools| => tools[k].Kind())
  }

  /** The surviving adapters keep the attempt order: their kinds are a subsequence of the kinds tried. */
  lemma {:induction false} RegistryKeepsOrder(kinds: seq<ToolKind>, construct: ToolKind -> Result<Tool, Exception>)
    requires BuildsOwnKind(construct)
    requires Registry(kinds, construct).Ok?
    ensures IsSubsequence(KindsOf(Registry(kinds, construct).value), kinds)
  {
    if kinds != [] {
      var init := kinds[..|kinds| - 1];
      var last := kinds[|kinds| - 1];
      assert init + [last] == kinds;
      RegistryKeepsOrder(init, construct);
      var tools := Registry(init, construct).value;
      var outcome := construct(last);
      if outcome.Ok? {
        assert KindsOf(tools + [outcome.value]) == KindsOf(tools) + [last];
      }
      SubsequenceExtend(KindsOf(tools), init, last);
    }
  }

  /** The registry holds an adapter of a kind exactly when that kind was tried and its constructor succeeded. */
  lemma {:induction false} RegistryHoldsSurvivors(kinds: seq<ToolKind>, construct: ToolKind -> Result<Tool, Exception>, t: Tool)
    requires Registry(kinds, construct).Ok?
    ensures t in Registry(kinds, construct).value <==> exists i :: 0 <= i < |kinds| && construct(kinds[i]) == Ok(t)
  {
    if kinds != [] {
      var init := kinds[..|kinds| - 1];
      RegistryHoldsSurvivors(init, construct, t);
      if exists i :: 0 <= i < |init| && construct(init[i]) == Ok(t) {
        var i :| 0 <= i < |init| && construct(init[i]) == Ok(t);
        assert kinds[i] == init[i];
      }
      if exists i :: 0 <= i < |kinds| && construct(kinds[i]) == Ok(t) {
        var i :| 0 <= i < |kinds| && construct(kinds[i]) == Ok(t);
        if i < |init| {
          assert init[i] == kinds[i];
        }
      }
    }
  }

  /** The registry obtained from one more attempt. */
  lemma RegistrySnoc(kinds: seq<ToolKind>, k: ToolKind, construct: ToolKind -> Result<Tool, Exception>)
    ensures Registry(kinds + [k], construct) ==
      match Registry(kinds, construct)
      case Err(e) => Err(e)
      case Ok(tools) => Step(tools, construct(k))
  {
    assert (kinds + [k])[..|kinds|] == kinds;
  }

  /** `_initialize_tools`: the four guarded appends. `attempted` lists the
      constructors called, in order. */
  method InitializeTools(construct: ToolKind -> Result<Tool, Exception>) returns (r: Result<seq<Tool>, Exception>, attempted: seq<ToolKind>)
    ensures r == Registry(AttemptOrder, construct)
    ensures r.Ok? ==> attempted == AttemptOrder
    ensures r.Err? ==> 0 < |attempted| <= 4 && attempted == AttemptOrder[..|attempted|]
    ensures r.Err? ==> Escapes(construct(attempted[|attempted| - 1])) && r.error == construct(attempted[|attempted| - 1]).error
    ensures forall i :: 0 <= i < |attempted| - 1 ==> !Escapes(construct(attempted[i]))
  {
    var tools: seq<Tool> := [];
    attempted := [];
    var i := 0;
    RegistrySnoc([], DatadogKind, construct);
    RegistrySnoc([DatadogKind], KubernetesKind, construct);
    RegistrySnoc([DatadogKind, KubernetesKind], SlackKind, construct);
    RegistrySnoc([DatadogKind, KubernetesKind, SlackKind], TeamsKind, construct);
    assert [] + [DatadogKind] == [DatadogKind];
    assert [DatadogKind] + [KubernetesKind] == [DatadogKind, KubernetesKind];
    assert [DatadogKind, KubernetesKind] + [SlackKind] == [DatadogKind, KubernetesKind, SlackKind];
    assert [DatadogKind, KubernetesKind, SlackKind] + [TeamsKind] == AttemptOrder;

    var step := Step(tools, construct(DatadogKind));
    attempted := attempted + [DatadogKind];
    if step.Err? {
      return step, attempted;
    }
    tools := step.value;

    step := Step(tools, construct(KubernetesKind));
    attempted := attempted + [KubernetesKind];
    if step.Err? {
      return step, attempted;
    }
    tools := step.value;

    step := Step(tools, construct(SlackKind));
    attempted := attempted + [SlackKind];
    if step.Err? {
      return step, attempted;
    }
    tools := step.value;

    step := Step(tools, construct(TeamsKind));
    attempted := attempted + [TeamsKind];
    if step.Err? {
      return step, attempted;
    }
    r := Ok(step.value);
  }

  /** The registry holds an adapter of each kind that was tried and whose constructor succeeded, and of no other. */
  lemma {:induction false} RegistryKinds(kinds: seq<ToolKind>, construct: ToolKind -> Result<Tool, Exception>, kind: ToolKind)
    requires BuildsOwnKind(construct)
    requires Registry(kinds, construct).Ok?
    ensures kind in KindsOf(Registry(kinds, construct).value) <==> kind in kinds && construct(kind).Ok?
  {
    if kinds != [] {
      var init := kinds[..|kinds| - 1];
      var last := kinds[|kinds| - 1];
      assert init + [last] == kinds;
      RegistryKinds(init, construct, kind);
      var tools := Registry(init, construct).value;
      var outcome := construct(last);
      if outcome.Ok? {
        assert KindsOf(tools + [outcome.value]) == KindsOf(tools) + [last];
      }
    }
  }

  /** With the model's constructors the registry never fails, and it holds
      exactly the adapters whose configuration is present. */
  lemma RegistryOfConstructors(env: Env, inCluster: Result<(), string>, kubeConfig: Result<(), string>, kind: ToolKind)
    ensures var construct := k => Construct(env, inCluster, kubeConfig, k);
      Registry(AttemptOrder, construct).Ok?
      && (kind in KindsOf(Registry(AttemptOrder, construct).value) <==> construct(kind).Ok?)
  {
    var construct := k => Construct(env, inCluster, kubeConfig, k);
    assert BuildsOwnKind(construct);
    assert forall i :: 0 <= i < |AttemptOrder| ==> !Escapes(construct(AttemptOrder[i]));
    RegistryKinds(AttemptOrder, construct, kind);
    assert kind in AttemptOrder;
  }

  // ---------------------------------------------------------------- agents

  /** The adapters among `tools` whose name is one of `names`, in registry order. */
  function ToolsNamed(tools: seq<Tool>, names: set<string>): (r: seq<Tool>)
    ensures forall t :: t in r <==> t in tools && t.Name() in names
    ensures IsSubsequence(r, tools)
    ensures forall t :: multiset(r)[t] == if t.Name() in names then multiset(tools)[t] else 0
  {
    if tools == [] then []
    else
      var init := tools[..|tools| - 1];
      var last := tools[|tools| - 1];
      assert tools == init + [last];
      var kept := ToolsNamed(init, names);
      ToolsNamedStep(kept, init, last, names);
      if last.Name() in names then kept + [last] else kept
  }

  /** One more adapter in the registry: the filter's three properties carry over. */
  lemma ToolsNamedStep(kept: seq<Tool>, init: seq<Tool>, last: Tool, names: set<string>)
    requires forall t :: t in kept <==> t in init && t.Name() in names
    requires IsSubsequence(kept, init)
    requires forall t :: multiset(kept)[t] == if t.Name() in names then multiset(init)[t] else 0
    ensures var r := if last.Name() in names then kept + [last] else kept;
      && (forall t :: t in r <==> t in init + [last] && t.Name() in names)
      && IsSubsequence(r, init + [last])
      && forall t :: multiset(r)[t] == if t.Name() in names then multiset(init + [last])[t] else 0
  {
    SubsequenceExtend(kept, init, last);
    assert multiset(init + [last]) == multiset(init) + multiset{last};
    assert multiset(kept + [last]) == multiset(kept) + multiset{last};
  }

  datatype Agent = Agent(key: string, role: string, tools: seq<Tool>, llm: Llm)

  const AgentKeys := ["alert_triage_agent", "investigator_agent", "root_cause_analyzer_agent", "notification_agent"]
  const AgentRoles := ["triage", "investigation", "analysis", "notification"]

  /** `_create_agents`: one role model and one tool filter per agent, in this order. */
  method CreateAgents(env: Env, llmProvider: Option<string>, tools: seq<Tool>) returns (r: Result<seq<Agent>, Exception>)
    ensures r.Ok? <==> CreateLlmForAgentRole(env, "triage", llmProvider).Ok?
    ensures r.Err? ==> r.error == CreateLlmForAgentRole(env, "triage", llmProvider).error
    ensures r.Ok? ==> |r.value| == 4
    ensures r.Ok? ==> forall i :: 0 <= i < 4 ==>
      r.value[i].key == AgentKeys[i] && r.value[i].role == AgentRoles[i]
      && r.value[i].llm == CreateLlmForAgentRole(env, AgentRoles[i], llmProvider).value
    ensures r.Ok? ==> r.value[0].tools == ToolsNamed(tools, {Datadog.ToolName})
    ensures r.Ok? ==> r.value[1].tools == ToolsNamed(tools, {Kubernetes.ToolName})
    ensures r.Ok? ==> r.value[2].tools == []
    ensures r.Ok? ==> r.value[3].tools == ToolsNamed(tools, {Notifiers.SlackToolName, Notifiers.TeamsToolName})
  {
    RoleDoesNotDecideFailure(env, "triage", "investigation", llmProvider);
    RoleDoesNotDecideFailure(env, "triage", "analysis", llmProvider);
    RoleDoesNotDecideFailure(env, "triage", "notification", llmProvider);
    // The later role models fail exactly when the first one does.
    var agents: seq<Agent> := [];

    var triageLlm := CreateLlmForAgentRole(env, "triage", llmProvider);
    if triageLlm.Err? {
      return Err(triageLlm.error);
    }
    var triage := Agent("alert_triage_agent", "triage", ToolsNamed(tools, {Datadog.ToolName}), triageLlm.value);
    agents := agents + [triage];

    var investigationLlm := CreateLlmForAgentRole(env, "investigation", llmProvider);
    var investigator := Agent("investigator_agent", "investigation", ToolsNamed(tools, {Kubernetes.ToolName}), investigationLlm.value);
    agents := agents + [investigator];

    var analysisLlm := CreateLlmForAgentRole(env, "analysis", llmProvider);
    var analyzer := Agent("root_cause_analyzer_agent", "analysis", [], analysisLlm.value);
    agents := agents + [analyzer];

    var notificationLlm := CreateLlmForAgentRole(env, "notification", llmProvider);
    var notifier := Agent("notification_agent", "notification",
                          ToolsNamed(tools, {Notifiers.SlackToolName, Notifiers.TeamsToolName}), notificationLlm.value);
    agents := agents + [notifier];
    assert agents == [triage, investigator, analyzer, notifier];
    r := Ok(agents);
  }

  /** Each agent sees only the adapters it is allowed, and every available one of them. */
  lemma AgentSeesItsAdapters(tools: seq<Tool>, t: Tool)
    ensures t in ToolsNamed(tools, {Datadog.ToolName}) <==> t in tools && t.Kind() == DatadogKind
    ensures t in ToolsNamed(tools, {Kubernetes.ToolName}) <==> t in tools && t.Kind() == KubernetesKind
    ensures t in ToolsNamed(tools, {Notifiers.SlackToolName, Notifiers.TeamsToolName}) <==>
      t in tools && (t.Kind() == SlackKind || t.Kind() == TeamsKind)
  {
    SingleNameSelectsKind(tools, t, DatadogKind);
    SingleNameSelectsKind(tools, t, KubernetesKind);
    KindNamesDistinct(t.Kind(), SlackKind);
    KindNamesDistinct(t.Kind(), TeamsKind);
  }

  /** Filtering by one adapter's name selects exactly the adapters of that kind. */
  lemma SingleNameSelectsKind(tools: seq<Tool>, t: Tool, kind: ToolKind)
    ensures t in ToolsNamed(tools, {KindName(kind)}) <==> t in tools && t.Kind() == kind
  {
    KindNamesDistinct(t.Kind(), kind);
  }

  // ---------------------------------------------------------------- tasks

  datatype Stage = TriageStage | InvestigateStage | AnalyzeStage | NotifyStage

  /** A task: its stage, the key of the agent that performs it, and the
      stages whose output it receives as context. */
  datatype Task = Task(stage: Stage, agentKey: string, context: seq<Stage>)

  /** Every stage a task reads is performed by an earlier task. */
  predicate ContextPrecedes(tasks: seq<Task>) {
    forall i, c :: 0 <= i < |tasks| && c in tasks[i].context ==> exists j :: 0 <= j < i && tasks[j].stage == c
  }

  /** The tasks `_create_tasks` builds, in order. */
  const TaskList := [Task(TriageStage, "alert_triage_agent", []),
                     Task(InvestigateStage, "investigator_agent", [TriageStage]),
                     Task(AnalyzeStage, "root_cause_analyzer_agent", [TriageStage, InvestigateStage]),
                     Task(NotifyStage, "notification_agent", [AnalyzeStage])]

  /** `_create_tasks`: four appends, each task naming its upstream tasks. */
  method CreateTasks() returns (tasks: seq<Task>)
    ensures |tasks| == 4
    ensures forall i :: 0 <= i < 4 ==> tasks[i].agentKey == AgentKeys[i]
    ensures tasks[0] == Task(TriageStage, "alert_triage_agent", [])
    ensures tasks[1] == Task(InvestigateStage, "investigator_agent", [TriageStage])
    ensures tasks[2] == Task(AnalyzeStage, "root_cause_analyzer_agent", [TriageStage, InvestigateStage])
    ensures tasks[3] == Task(NotifyStage, "notification_agent", [AnalyzeStage])
    ensures tasks == TaskList
    ensures ContextPrecedes(tasks)
  {
    tasks := [];
    tasks := tasks + [Task(TriageStage, "alert_triage_agent", [])];
    tasks := tasks + [Task(InvestigateStage, "investigator_agent", [TriageStage])];
    tasks := tasks + [Task(AnalyzeStage, "root_cause_analyzer_agent", [TriageStage, InvestigateStage])];
    tasks := tasks + [Task(NotifyStage, "notification_agent", [AnalyzeStage])];
    forall i, c | 0 <= i < |tasks| && c in tasks[i].context
      ensures exists j :: 0 <= j < i && tasks[j].stage == c
    {
      if c == TriageStage {
        assert tasks[0].stage == c;
      } else {
        assert i == 2 || i == 3;
        assert tasks[if c == InvestigateStage then 1 else 2].stage == c;
      }
    }
  }

  // ---------------------------------------------------------------- sequential process

  /** The output of the first earlier task performing `stage`. */
  function OutputOf(stage: Stage, done: seq<Task>, outputs: seq<string>): (r: Option<string>)
    requires |done| == |outputs|
    ensures r.Some? <==> exists j :: 0 <= j < |done| && done[j].stage == stage
    ensures r.Some? ==> exists j :: 0 <= j < |done| && done[j].stage == stage && r.value == outputs[j]
                                   && forall i :: 0 <= i < j ==> done[i].stage != stage
  {
    if done == [] then None
    else if done[0].stage == stage then Some(outputs[0])
    else
      var r := OutputOf(stage, done[1..], outputs[1..]);
      assert r.Some? ==> exists j :: 1 <= j < |done| && done[j].stage == stage && r.value == outputs[j]
                                    && forall i :: 0 <= i < j ==> done[i].stage != stage by {
        if r.Some? {
          var j' :| 0 <= j' < |done| - 1 && done[1..][j'].stage == stage && r.value == outputs[1..][j']
                    && forall i :: 0 <= i < j' ==> done[1..][i].stage != stage;
          assert forall i :: 0 <= i < j' + 1 ==> done[i].stage != stage by {
            forall i | 0 <= i < j' + 1 ensures done[i].stage != stage {
              if i > 0 { assert done[i] == done[1..][i - 1]; }
            }
          }
        }
      }
      r
  }

  /** The outputs of the listed stages, or the first stage that has none yet. */
  function ContextOutputs(context: seq<Stage>, done: seq<Task>, outputs: seq<string>): (r: Result<seq<string>, Stage>)
    requires |done| == |outputs|
    ensures r.Ok? <==> forall c :: c in context ==> exists j :: 0 <= j < |done| && done[j].stage == c
    ensures r.Ok? ==> |r.value| == |context|
    ensures r.Ok? ==> forall k :: 0 <= k < |context| ==> OutputOf(context[k], done, outputs) == Some(r.value[k])
  {
    if context == [] then Ok([])
    else
      match OutputOf(context[0], done, outputs)
      case None =>
        assert context[0] in context;
        Err(context[0])
      case Some(out) =>
        assert forall c :: c in context <==> c == context[0] || c in context[1..];
        var rest :- ContextOutputs(context[1..], done, outputs);
        Ok([out] + rest)
  }

  /** A sequential process: the tasks run in list order, each given the
      outputs of its context tasks; a context task that has not run yet is a
      failure naming it. `perform` stands for the agent's work. */
  function RunSequential(tasks: seq<Task>, perform: (Task, seq<string>) -> string): (r: Result<seq<string>, Stage>)
    ensures r.Ok? ==> |r.value| == |tasks|
    ensures r.Ok? ==> forall i :: 0 <= i < |tasks| ==>
      ContextOutputs(tasks[i].context, tasks[..i], r.value[..i]).Ok?
      && r.value[i] == perform(tasks[i], ContextOutputs(tasks[i].context, tasks[..i], r.value[..i]).value)
  {
    if tasks == [] then Ok([])
    else
      var done := tasks[..|tasks| - 1];
      var outputs :- RunSequential(done, perform);
      var context :- ContextOutputs(tasks[|tasks| - 1].context, done, outputs);
      SequentialStep(tasks, outputs, context, perform);
      Ok(outputs + [perform(tasks[|tasks| - 1], context)])
  }

  /** Running one more task keeps every earlier task's output and context. */
  lemma SequentialStep(tasks: seq<Task>, outputs: seq<string>, context: seq<string>, perform: (Task, seq<string>) -> string)
    requires tasks != [] && |outputs| == |tasks| - 1
    requires forall i :: 0 <= i < |tasks| - 1 ==>
      ContextOutputs(tasks[..|tasks| - 1][i].context, tasks[..|tasks| - 1][..i], outputs[..i]).Ok?
      && outputs[i] == perform(tasks[..|tasks| - 1][i], ContextOutputs(tasks[..|tasks| - 1][i].context, tasks[..|tasks| - 1][..i], outputs[..i]).value)
    requires ContextOutputs(tasks[|tasks| - 1].context, tasks[..|tasks| - 1], outputs) == Ok(context)
    ensures var all := outputs + [perform(tasks[|tasks| - 1], context)];
      forall i :: 0 <= i < |tasks| ==>
        ContextOutputs(tasks[i].context, tasks[..i], all[..i]).Ok?
        && all[i] == perform(tasks[i], ContextOutputs(tasks[i].context, tasks[..i], all[..i]).value)
  {
    var done := tasks[..|tasks| - 1];
    var all := outputs + [perform(tasks[|tasks| - 1], context)];
    assert all[..|outputs|] == outputs;
    forall i | 0 <= i < |tasks|
      ensures ContextOutputs(tasks[i].context, tasks[..i], all[..i]).Ok?
      ensures all[i] == perform(tasks[i], ContextOutputs(tasks[i].context, tasks[..i], all[..i]).value)
    {
      if i < |done| {
        assert tasks[..i] == done[..i];
        assert all[..i] == all[..|outputs|][..i];
        assert tasks[i] == done[i] && all[i] == outputs[i];
      } else {
        assert tasks[..i] == done && all[..i] == outputs;
      }
    }
  }

  /** A completed run had every context available, so every context precedes its task. */
  lemma CompletedRunRespectsContexts(tasks: seq<Task>, perform: (Task, seq<string>) -> string)
    requires RunSequential(tasks, perform).Ok?
    ensures ContextPrecedes(tasks)
  {
    var outputs := RunSequential(tasks, perform).value;
    forall i, c | 0 <= i < |tasks| && c in tasks[i].context
      ensures exists j :: 0 <= j < i && tasks[j].stage == c
    {
      assert ContextOutputs(tasks[i].context, tasks[..i], outputs[..i]).Ok?;
      var j :| 0 <= j < i && tasks[..i][j].stage == c;
      assert tasks[..i][j] == tasks[j];
    }
  }

  /** When every context precedes its task, the run completes. */
  lemma {:induction false} OrderedContextsComplete(tasks: seq<Task>, perform: (Task, seq<string>) -> string)
    requires ContextPrecedes(tasks)
    ensures RunSequential(tasks, perform).Ok?
  {
    if tasks != [] {
      var done := tasks[..|tasks| - 1];
      var last := tasks[|tasks| - 1];
      assert forall j :: 0 <= j < |done| ==> done[j] == tasks[j];
      assert ContextPrecedes(done) by {
        forall i, c | 0 <= i < |done| && c in done[i].context
          ensures exists j :: 0 <= j < i && done[j].stage == c
        {
          assert tasks[i] == done[i];
          var j :| 0 <= j < i && tasks[j].stage == c;
          assert done[j] == tasks[j];
        }
      }
      OrderedContextsComplete(done, perform);
      var outputs := RunSequential(done, perform).value;
      assert forall c :: c in last.context ==> exists j :: 0 <= j < |done| && done[j].stage == c by {
        forall c | c in last.context
          ensures exists j :: 0 <= j < |done| && done[j].stage == c
        {
          var j :| 0 <= j < |tasks| - 1 && tasks[j].stage == c;
          assert done[j] == tasks[j];
        }
      }
      assert ContextOutputs(last.context, done, outputs).Ok?;
    }
  }

  /** A sequential run completes exactly when every context dependency precedes its dependent. */
  lemma SequentialRunCompletes(tasks: seq<Task>, perform: (Task, seq<string>) -> string)
    ensures RunSequential(tasks, perform).Ok? <==> ContextPrecedes(tasks)
  {
    if RunSequential(tasks, perform).Ok? {
      CompletedRunRespectsContexts(tasks, perform);
    }
    if ContextPrecedes(tasks) {
      OrderedContextsComplete(tasks, perform);
    }
  }

  // ---------------------------------------------------------------- crew

  /** The crew `_create_crew` configures. */
  datatype Crew = Crew(agents: seq<Agent>, tasks: seq<Task>, sequential: bool, verbose: bool, memory: bool, maxIterations: nat)

  /** `_create_crew`: the agents in creation order, the tasks, a sequential
      process with memory and at most three iterations. */
  function CreateCrew(agents: seq<Agent>, tasks: seq<Task>): (c: Crew)
    ensures c.agents == agents && c.tasks == tasks
    ensures c.sequential && c.memory && c.maxIterations == 3
  {
    Crew(agents, tasks, true, true, true, 3)
  }

  const DefaultIncidentContext := "Verificar alertas ativos"

  /** The kickoff inputs: the incident context, or the default request when it is missing or empty. */
  function IncidentInputs(context: Option<string>): (inputs: map<string, string>)
    ensures inputs.Keys == {"incident_context"}
    ensures context.None? || context == Some("") ==> inputs["incident_context"] == DefaultIncidentContext
    ensures context.Some? && context.value != "" ==> inputs["incident_context"] == context.value
  {
    map["incident_context" := if context.None? || context.value == "" then DefaultIncidentContext else context.value]
  }

  /** `_create_default_llm`: `create_llm` with the configured provider; when
      none is configured the default provider is also looked up, which can raise. */
  function DefaultLlm(env: Env, llmProvider: Option<string>): (r: Result<Llm, Exception>)
    ensures r == CreateLlm(env, llmProvider, None, 0.1)
  {
    var llm :- CreateLlm(env, llmProvider, None, 0.1);
    if llmProvider.None? || llmProvider == Some("") then
      DefaultProviderFollowsLlm(env, llmProvider);
      var _ :- GetDefaultProvider(env);
      Ok(llm)
    else Ok(llm)
  }

  /** Once a client has been created, some provider is configured, so the default-provider lookup succeeds. */
  lemma DefaultProviderFollowsLlm(env: Env, llmProvider: Option<string>)
    requires CreateLlm(env, llmProvider, None, 0.1).Ok?
    ensures GetDefaultProvider(env).Ok?
  {
    var llm := CreateLlm(env, llmProvider, None, 0.1).value;
    assert IsSet(env, llm.provider.KeyVariable());
    if llm.provider == OpenAI {
      assert "openai" in AvailableProviders(env);
    } else {
      assert "gemini" in AvailableProviders(env);
    }
  }

  /** `get_crew_status`. */
  datatype CrewStatus = CrewStatus(
    agentsCount: nat,
    tasksCount: nat,
    toolsAvailable: seq<string>,
    process: string,
    memoryEnabled: bool,
    llmProvider: string,
    availableProviders: seq<string>,
    llmType: string)

  /** The tools' names, in registry order. */
  function ToolNames(tools: seq<Tool>): (names: seq<string>)
    ensures |names| == |tools| && forall k :: 0 <= k < |tools| ==> names[k] == tools[k].Name()
  {
    seq(|tools|, k requires 0 <= k < |tools| => tools[k].Name())
  }

  /** The provider the status reports: the configured one, else the default
      provider, else "none" when that lookup raises. */
  function CurrentProvider(env: Env, llmProvider: Option<string>): (p: string)
    ensures llmProvider.Some? && llmProvider.value != "" ==> p == llmProvider.value
    ensures (llmProvider.None? || llmProvider == Some("")) && GetDefaultProvider(env).Ok? ==> p == GetDefaultProvider(env).value
    ensures (llmProvider.None? || llmProvider == Some("")) && GetDefaultProvider(env).Err? ==> p == "none"
    ensures llmProvider.None? ==> p == "none" || p in AvailableProviders(env)
  {
    if llmProvider.Some? && llmProvider.value != "" then llmProvider.value
    else match GetDefaultProvider(env)
      case Ok(p) => p
      case Err(_) => "none"
  }

  class SreCopilot {
    var llmProvider: Option<string>
    var availableProviders: seq<string>
    var defaultLlm: Llm
    var tools: seq<Tool>
    var agents: seq<Agent>
    var tasks: seq<Task>
    var crew: Crew

    /** The assignments of `__init__` once every step has succeeded. */
    constructor (llmProvider: Option<string>, availableProviders: seq<string>, defaultLlm: Llm,
                 tools: seq<Tool>, agents: seq<Agent>, tasks: seq<Task>, crew: Crew)
      ensures this.llmProvider == llmProvider && this.availableProviders == availableProviders
      ensures this.defaultLlm == defaultLlm && this.tools == tools
      ensures this.agents == agents && this.tasks == tasks && this.crew == crew
    {
      this.llmProvider := llmProvider;
      this.availableProviders := availableProviders;
      this.defaultLlm := defaultLlm;
      this.tools := tools;
      this.agents := agents;
      this.tasks := tasks;
      this.crew := crew;
    }

    /** What holds of every constructed copilot. */
    predicate Valid()
      reads this
    {
      |agents| == 4 && |tasks| == 4 && ContextPrecedes(tasks)
      && (forall i :: 0 <= i < 4 ==> agents[i].key == AgentKeys[i] && tasks[i].agentKey == AgentKeys[i])
      && crew == CreateCrew(agents, tasks)
    }

    /** `get_crew_status`; the default-provider lookup reads the environment at call time. */
    function Status(env: Env): (s: CrewStatus)
      reads this
      ensures s.agentsCount == |agents| && s.tasksCount == |tasks|
      ensures s.toolsAvailable == ToolNames(tools)
      ensures s.process == "sequential" && s.memoryEnabled
      ensures s.llmProvider == CurrentProvider(env, llmProvider)
      ensures s.availableProviders == availableProviders
      ensures s.llmType == defaultLlm.ClassName()
    {
      CrewStatus(|agents|, |tasks|, ToolNames(tools), "sequential", true, CurrentProvider(env, llmProvider),
                 availableProviders, defaultLlm.ClassName())
    }

    /** `run_incident_response`: one kickoff with the incident input; its exception is re-raised. */
    method RunIncidentResponse(context: Option<string>, kickoff: (Crew, map<string, string>) -> Result<string, Exception>)
      returns (r: Result<string, Exception>)
      ensures r == kickoff(crew, IncidentInputs(context))
    {
      r := kickoff(crew, IncidentInputs(context));
    }
  }

  /** A constructed copilot reports four agents and four tasks. */
  lemma StatusOfValidCopilot(c: SreCopilot, env: Env)
    requires c.Valid()
    ensures c.Status(env).agentsCount == 4 && c.Status(env).tasksCount == 4
    ensures c.Status(env).process == "sequential" && c.Status(env).memoryEnabled
  {
  }

  /** `SRECopilot.__init__`: the default model, the registry, the agents, the
      tasks and the crew, in that order; the first step that raises stops it. */
  method NewSreCopilot(env: Env, llmProvider: Option<string>, construct: ToolKind -> Result<Tool, Exception>)
    returns (r: Result<SreCopilot, Exception>)
    ensures r.Ok? <==> (CreateLlm(env, llmProvider, None, 0.1).Ok? && Registry(AttemptOrder, construct).Ok?
                        && CreateLlmForAgentRole(env, "triage", llmProvider).Ok?)
    ensures CreateLlm(env, llmProvider, None, 0.1).Err? ==> r == Err(CreateLlm(env, llmProvider, None, 0.1).error)
    ensures r.Ok? ==> fresh(r.value) && r.value.Valid()
    ensures r.Ok? ==> r.value.llmProvider == llmProvider && r.value.availableProviders == AvailableProviders(env)
    ensures r.Ok? ==> r.value.defaultLlm == CreateLlm(env, llmProvider, None, 0.1).value
    ensures r.Ok? ==> r.value.tools == Registry(AttemptOrder, construct).value
    ensures CreateLlm(env, llmProvider, None, 0.1).Ok? && Registry(AttemptOrder, construct).Err? ==>
      r == Err(Registry(AttemptOrder, construct).error)
    ensures (CreateLlm(env, llmProvider, None, 0.1).Ok? && Registry(AttemptOrder, construct).Ok?
             && CreateLlmForAgentRole(env, "triage", llmProvider).Err?) ==>
      r == Err(CreateLlmForAgentRole(env, "triage", llmProvider).error)
    ensures r.Ok? ==> forall i :: 0 <= i < 4 ==>
      r.value.agents[i].role == AgentRoles[i]
      && r.value.agents[i].llm == CreateLlmForAgentRole(env, AgentRoles[i], llmProvider).value
    ensures r.Ok? ==> r.value.agents[0].tools == ToolsNamed(r.value.tools, {Datadog.ToolName})
    ensures r.Ok? ==> r.value.agents[1].tools == ToolsNamed(r.value.tools, {Kubernetes.ToolName})
    ensures r.Ok? ==> r.value.agents[2].tools == []
    ensures r.Ok? ==> r.value.agents[3].tools == ToolsNamed(r.value.tools, {Notifiers.SlackToolName, Notifiers.TeamsToolName})
    ensures r.Ok? ==> r.value.tasks == TaskList
  {
    var available := GetAvailableProviders(env);
    var llm := DefaultLlm(env, llmProvider);
    if llm.Err? {
      return Err(llm.error);
    }
    var tools, _ := InitializeTools(construct);
    if tools.Err? {
      return Err(tools.error);
    }
    var agents := CreateAgents(env, llmProvider, tools.value);
    if agents.Err? {
      return Err(agents.error);
    }
    var tasks := CreateTasks();
    var crew := CreateCrew(agents.value, tasks);
    var copilot := new SreCopilot(llmProvider, available, llm.value, tools.value, agents.value, tasks, crew);
    r := Ok(copilot);
  }
}
