# SRE Copilot, modelled in Dafny

SRE Copilot is an incident-response assistant. An `SRECopilot` object gathers
four adapters (tools): a Datadog client, a Kubernetes client, a Slack notifier
and a Microsoft Teams notifier. It gives them to four agents (triage,
investigation, root cause analysis, notification) and chains the agents'
tasks into one sequential crew. A small factory chooses the language model
(OpenAI or Gemini) for each agent role using the environment.

This project models the deterministic core of that system:

- **`wrappers.dfy`, `environment.dfy`**: `Option` and `Result`, and the
  process environment as `os.getenv` sees it. A key counts as *set* when it is
  present and non-empty, which is Python truthiness on the returned value.
- **`pyvalue.dfy`**: decoded JSON values and the Python built-ins the adapters
  apply to them. These are `dict.get` (the last binding of a key wins),
  truthiness, `str()`, iteration, `str.join` with its exact `TypeError` texts,
  and `str.strip`.
- **`llm_factory.dfy`**: `LLMFactory.create_llm` and its two provider
  constructors, provider discovery and the default provider, the model and
  temperature tables of `LLMConfig`, and `create_llm_for_agent_role`.
- **`datadog.dfy`**: the Datadog tool. It covers the credential check, action
  dispatch, the monitor query with its two-level fallback, P1/P2 triage, the
  logs request with its defaults, and the fixed metrics reply.
- **`kubernetes.dfy`**: the Kubernetes tool. It covers the two configuration
  attempts, action dispatch, and the pods, logs, events, describe and
  deployments replies, with pod readiness and restart totals.
- **`notifiers.dfy`**: the Slack and Teams notifiers. It covers their
  credential checks, both incident-report templates (the layout after
  `strip()` and every action bullet appearing in it), the Slack post and its
  error paths, and the Teams card title, colour and text.
- **`copilot.dfy`**: the orchestrator. It covers tool registration in a fixed
  order (constructors that raise `ValueError` are skipped), each agent's tool
  filter, the task context graph and the sequential process it needs, the
  crew settings, the kickoff input, the status report, and construction of
  the `SRECopilot` object.

External services are parameters of the functions that use them. These are:

- the Datadog monitors and logs APIs;
- the Kubernetes API calls;
- the Slack `chat_postMessage` call;
- the Teams webhook `send`;
- the JSON decoder;
- the clock;
- the crew's `kickoff`;
- each adapter constructor, as seen by the registry.

Each such function states exactly what it passes to the service and how it
turns the service's result or error into the tool's reply. Replies are
structured values rather than JSON text: a reply's `"status"` field becomes
the constructor of a datatype, and the other fields become that
constructor's fields.

Two decisions follow the code rather than the prose describing it:

- **Monitor fallback.** When the filtered monitor query fails, the code
  retries without filters, and when that also fails it reports success with
  no alerts. The repository's tests expect an error at that point instead.
  The model follows the code: see `Datadog.ExhaustedFallbackIsEmptySuccess`.
- **Report literals.** The emoji and accented letters in both report
  templates are stored in `tools.py` as UTF-8 bytes read back as
  Windows-1254, for example `ğŸš¨` where `🚨` was meant. The model uses
  those code points exactly as stored (`Notifiers.Siren`, `Notifiers.Bullet`
  and so on). The proofs never depend on those literals' values.

## Model

All paths are relative to the repository root.

| member | source | states |
|---|---|---|
| LlmFactory.Lower | llm_factory.py:49-52 | `lower()` keeps the length and maps each ASCII capital to its lower-case letter |
| LlmFactory.LowerIdempotent | llm_factory.py:49-52 | lower-casing twice (`os.getenv(...).lower()` then `.lower()` again) is the same as once |
| LlmFactory.LowerProviderName | llm_factory.py:17-20 | the provider enum values are already lower case, so comparing them with a lowered name is sound |
| LlmFactory.CreateOpenAiLlm | llm_factory.py:61-81 | fails with the exact ValueError iff OPENAI_API_KEY is unset; otherwise an OpenAI client with the key, the given temperature and model, or `gpt-3.5-turbo-instruct` |
| LlmFactory.CreateGeminiLlm | llm_factory.py:83-103 | fails with the exact ValueError iff GOOGLE_API_KEY is unset; otherwise a Gemini client with the key, the temperature and model, or `gemini-pro` |
| LlmFactory.CreateLlm | llm_factory.py:26-59 | the lowered provider (argument, else DEFAULT_LLM_PROVIDER, else openai) picks the constructor; any other name gives `Unsupported LLM provider: … Supported: ['openai', 'gemini']`; a created client's provider key is set |
| LlmFactory.AvailableProviders | llm_factory.py:105-121 | openai is listed iff its key is set, gemini iff its key is set; nothing else is listed, nothing twice, and openai comes first |
| LlmFactory.GetAvailableProviders | llm_factory.py:105-121 | the two membership checks performed by appending, equal to the specification function |
| LlmFactory.GetDefaultProvider | llm_factory.py:123-139 | succeeds iff some provider is available; DEFAULT_LLM_PROVIDER (lowered) wins when it is available, otherwise the first available provider; otherwise the exact ValueError |
| LlmFactory.GetModel | llm_factory.py:146-172 | the table entry for known provider and type, `default` for an unknown type, and KeyError for an unknown provider |
| LlmFactory.GetTemperature | llm_factory.py:174-177 | the table entry, or `balanced` for an unknown type; always between 0.0 and 0.7 |
| LlmFactory.UnknownTemperatureIsBalanced | llm_factory.py:174-177 | an unknown temperature type gives 0.1 |
| LlmFactory.RoleLlm | llm_factory.py:217-221 | for a known provider the role's model and temperature are used; succeeds iff the provider is openai or gemini and its key is set; otherwise the KeyError of the model table or the provider's missing-key ValueError |
| LlmFactory.CreateLlmForAgentRole | llm_factory.py:180-221 | the model is looked up for the role's model type and the caller's (or default) provider; the temperature is the role's; with no provider it succeeds iff some provider is available, and otherwise fails with the no-provider error; with a provider it succeeds iff that provider is openai or gemini and its key is set, and otherwise fails with `KeyError(provider)` or the missing-key ValueError |
| LlmFactory.UnknownRoleIsInvestigation | llm_factory.py:211 | a role outside the four known ones builds exactly what `investigation` builds |
| LlmFactory.RoleDoesNotDecideFailure | llm_factory.py:180-221 | whether a role's client can be built does not depend on the role |
| LlmFactory.RoleTemperature | llm_factory.py:192-219 | triage and notification run at 0.0, the other roles at 0.1 |
| LlmFactory.DefaultLlmIgnoresDefaultProvider | llm_factory.py:49-57 | with only GOOGLE_API_KEY set, the default provider is gemini, yet `create_llm()` still tries OpenAI and raises |
| LlmFactory.CapitalisedProviderOnlyForCreateLlm | llm_factory.py:214-221 | `OpenAI` is accepted by `create_llm` (it lowers) but gives KeyError in `create_llm_for_agent_role` (it does not) |
| Datadog.NewDatadogTool | tools.py:38-58 | the tool exists iff both Datadog keys are set, keeping them; otherwise the exact ValueError |
| Datadog.TagsString | tools.py:83-84 | falsy tags give no filter; otherwise the comma join, or its TypeError text |
| Datadog.FirstQuery | tools.py:86-96 | always asks for `Alert,Warn`; passes a tags filter iff the joined string is non-empty |
| Datadog.Triage | tools.py:106-117 | a monitor is kept iff its priority is 1 or 2, labelled `P1`/`P2`, with its id, name, message, state, tags (or `[]`), rendered creation time and query; it fails iff the priority cannot be read, or a P1/P2 monitor's attributes or `isoformat()` raise, with that exception's text |
| Datadog.CriticalAlerts | tools.py:105-118 | succeeds iff every monitor passes Triage (only a P1/P2 monitor's other attributes are read); every alert is P1 or P2; a failure is the error of the first monitor that fails |
| Datadog.AlertsFollowBackendOrder | tools.py:105-118 | the alerts are, one for one and in backend order, the records of the critical monitors |
| Datadog.FirstErrorWins | tools.py:105-118 | a failure on a prefix of the monitors is the failure of the whole loop |
| Datadog.CriticalAlertsSnoc | tools.py:106-118 | one more loop iteration appends that monitor's alert, if any |
| Datadog.ThreePrioritiesGiveTwoAlerts | tools.py:105-118 | monitors of priority 1, 2 and 3 give two alerts, P1 then P2 |
| Datadog.MonitorsReply | tools.py:78-130 | a success counts its alerts, which are all P1/P2; an error starts with `Failed to fetch monitors: `; a tags value that cannot be joined gives that error |
| Datadog.FirstResultIsUsed | tools.py:86-118 | when the filtered query succeeds, its monitors are the ones reduced to critical alerts, and a failure while reducing them is the reply's error |
| Datadog.GetActiveMonitors | tools.py:78-130 | equals the specification; the first call uses the computed filter, and the unfiltered call is made iff the first one failed |
| Datadog.ExhaustedFallbackIsEmptySuccess | tools.py:97-103 | when both monitor queries fail the reply is success with no alerts |
| Datadog.FallbackUsesUnfilteredResult | tools.py:97-100 | after a failed first query the alerts come from the unfiltered result |
| Datadog.LogsRequest | tools.py:136-147 | each of query, limit, from and to is taken from the input when present, else `status:error`, 100, thirty minutes ago, now |
| Datadog.LogsReply | tools.py:132-160 | an error iff the logs API fails, with `Failed to fetch logs: `; otherwise its result |
| Datadog.ActionOf | tools.py:64-73 | the default action is `get_monitors`; each known action iff the input names it; anything else is unknown and carries the value given |
| Datadog.PlainQueryNamesTheAction | tools.py:63-64 | text that does not start with `{` is the action itself |
| Datadog.Run | tools.py:60-76 | a decoding error gives `Error executing Datadog query: `; otherwise the reply of the chosen action, or `Unknown action: ` and the value |
| Kubernetes.NewKubernetesTool | tools.py:177-189 | the client exists iff the in-cluster or the kube-config attempt succeeds, in-cluster first; otherwise the ValueError with the kube-config error |
| Kubernetes.FirstReady | tools.py:425-427 | the position of the first `Ready` condition, if there is one |
| Kubernetes.PodReadyIff | tools.py:420-428 | a pod is ready iff its first `Ready` condition has status `True` |
| Kubernetes.IsPodReady | tools.py:420-428 | the loop with early return computes exactly readiness; no conditions means not ready |
| Kubernetes.RestartTotalAppend | tools.py:230 | the restart total of two lists of statuses is the sum of their totals |
| Kubernetes.RestartTotalBoundsEach | tools.py:230 | every container's restarts are at most the pod's total |
| Kubernetes.RestartTotalZero | tools.py:230 | the total is zero iff no container restarted |
| Kubernetes.PodsRequest | tools.py:216-222 | namespace defaults to `default`, label selector to the empty string |
| Kubernetes.ContainerNames | tools.py:235 | the container names, in order |
| Kubernetes.PodsReply | tools.py:213-250 | an error iff listing fails (see Left out on projection errors), prefixed `Failed to get pods: `; otherwise one record per pod in order, with its name, namespace, phase, readiness, restart total, labels (or `{}`), creation time, node and container names, and a matching count |
| Kubernetes.GetPodsInfo | tools.py:213-250 | the loop over pods builds exactly the specified reply |
| Kubernetes.PodLogsReply | tools.py:252-283 | a falsy pod name gives `pod_name is required` without reading logs; otherwise the log read with namespace, container, line defaults and timestamps, and its error prefixed |
| Kubernetes.MissingPodNameNeverReadsLogs | tools.py:255-261 | with no pod name the reply does not depend on the cluster |
| Kubernetes.EventsReply | tools.py:285-322 | an error iff listing fails (see Left out on projection errors), prefixed `Failed to get events: `; otherwise one record per event, in order, copying its name, namespace, reason, message, type, count, first and last timestamps and involved object, with a matching count |
| Kubernetes.GetEvents | tools.py:285-322 | the loop builds exactly the specified reply |
| Kubernetes.PodDetailsOf | tools.py:335-374 | name, namespace, creation time, phase, pod IP and the spec's node, restart policy and containers are copied; missing conditions, statuses, labels and annotations become empty; present ones, labels and annotations included, are kept |
| Kubernetes.DescribeReply | tools.py:324-385 | a falsy pod name is refused; otherwise the pod's details, or its read error prefixed `Failed to describe pod: ` |
| Kubernetes.OrZero | tools.py:400-401 | `x or 0`: zero iff missing or zero, else the value |
| Kubernetes.DeploymentsReply | tools.py:387-418 | an error iff listing fails (see Left out on projection errors), prefixed `Failed to get deployments: `; otherwise one record per deployment with its name, namespace, desired replicas, labels (or `{}`) and creation time, and ready/available counts whose missing values read as 0 |
| Kubernetes.GetDeployments | tools.py:387-418 | the loop builds exactly the specified reply |
| Kubernetes.ActionOf | tools.py:195-208 | the default action is `get_pods`; each of the five actions iff named; anything else is unknown |
| Kubernetes.Run | tools.py:191-211 | a decoding error gives `Error executing Kubernetes command: `; otherwise the chosen action's reply, or `Unknown action: ` and the value |
| Notifiers.NewSlackTool | tools.py:437-443 | the notifier exists iff SLACK_BOT_TOKEN is set; otherwise the exact ValueError |
| Notifiers.NewTeamsTool | tools.py:512-516 | the notifier exists iff TEAMS_WEBHOOK_URL is set; otherwise the exact ValueError |
| Notifiers.Bullets | tools.py:495 | one bullet line per action, in order |
| Notifiers.ReportFieldsOf | tools.py:487-498 | the fields are available iff services and teams join and the actions iterate; status, start time and root cause show their values or the defaults `UNKNOWN`, `N/A` and `Investigating...`; services and teams are their comma joins; the actions are the bullet lines; each failure is the error of the first step that fails |
| Notifiers.FormatSlackReport | tools.py:482-503 | fails iff a field or the dashboard join fails, with that error; the stripped text is the banner, status line and body, with the dashboards tail trimmed |
| Notifiers.FormatTeamsReport | tools.py:548-564 | fails iff a field fails; the stripped text starts with the status line and ends with the teams trimmed |
| Notifiers.SlackTemplateStrip | tools.py:484-503 | `strip()` removes only the leading newline and the whitespace after the last dashboard |
| Notifiers.TeamsTemplateStrip | tools.py:550-564 | `strip()` removes only the leading newline and the whitespace after the teams |
| Notifiers.SlackReportListsEveryAction | tools.py:494-495 | every action taken appears as a bullet in the Slack report |
| Notifiers.TeamsReportListsEveryAction | tools.py:558-559 | every action taken appears as a bullet in the Teams report |
| Notifiers.TeamsReportReadsOnlyItsKeys | tools.py:548-564 | the Teams report depends only on status, start time, services, root cause, actions and teams |
| Notifiers.ReportFieldsReadSixKeys | tools.py:487-498 | the report fields depend only on those six keys |
| Notifiers.SlackRequest | tools.py:448-456 | channel defaults to `#incidents`; text defaults to the message; a dict text is formatted as a report, and its failure is the request's |
| Notifiers.SlackRun | tools.py:445-480 | the post is made with the request; an API error gives `Slack API error: `; other failures `Failed to send Slack notification: `; success reports the channel and `ts` |
| Notifiers.PlainSlackTextIsPostedVerbatim | tools.py:448-456 | plain text is posted unchanged to `#incidents` |
| Notifiers.TeamsColor | tools.py:528 | red iff the status is `ATIVO`, green otherwise |
| Notifiers.TeamsCard | tools.py:523-533 | with a status, a titled, coloured card with the formatted report; without, the `text` value or the dict's `str()` |
| Notifiers.TeamsRun | tools.py:518-546 | sent iff the card can be built and the webhook accepts it; every failure prefixed `Failed to send Teams notification: ` |
| Notifiers.ActiveIncidentIsRed | tools.py:525-529 | an `ATIVO` report sends a red card |
| PyValue.Lookup | tools.py:64 | `dict.get`: absent iff no member has the key; otherwise the last binding of the key |
| PyValue.JoinValues | tools.py:84 | `join` succeeds iff the value iterates to strings only, and is then their join; the exact TypeError texts otherwise |
| PyValue.JoinContainsEveryPart | tools.py:498 | every part of a join occurs in the joined text |
| PyValue.StripNewlineFramed | tools.py:503 | `strip()` of a newline-framed text starting with a visible character keeps it from that character |
| Copilot.KindNamesDistinct | sre_copilot.py:104-148 | the four tool names tell the adapters apart, so each name filter selects one class |
| Copilot.Construct | sre_copilot.py:62-91 | each constructor yields its own class and fails only with ValueError, exactly when its configuration is missing |
| Copilot.Registry | sre_copilot.py:62-91 | registration fails iff a constructor raises something other than ValueError; at most one tool per attempt |
| Copilot.RegistryKeepsOrder | sre_copilot.py:62-91 | registered tools keep the attempt order |
| Copilot.RegistryHoldsSurvivors | sre_copilot.py:62-91 | a tool is registered iff some attempted constructor returned it |
| Copilot.RegistryKinds | sre_copilot.py:62-91 | a class is registered iff it was attempted and its constructor succeeded |
| Copilot.RegistryOfConstructors | sre_copilot.py:62-91 | with the real constructors registration never fails and holds exactly the configured adapters |
| Copilot.RegistrySnoc | sre_copilot.py:62-91 | one more guarded append extends the registry by that constructor's outcome |
| Copilot.InitializeTools | sre_copilot.py:62-91 | the four guarded appends give the specified registry; constructors run in order and stop at the first escaping exception |
| Copilot.ToolsNamed | sre_copilot.py:104-148 | the filter keeps exactly the tools whose name is listed, in registry order, each as often as the registry holds it |
| Copilot.CreateAgents | sre_copilot.py:93-153 | four agents in order with their keys, roles, role models and tool filters; the root-cause agent has no tools; fails iff the role model cannot be built |
| Copilot.AgentSeesItsAdapters | sre_copilot.py:104-148 | triage sees only Datadog, investigation only Kubernetes, notification only Slack and Teams, each whenever registered |
| Copilot.SingleNameSelectsKind | sre_copilot.py:107-121 | filtering by one adapter's name keeps exactly the registered adapters of that kind |
| Copilot.CreateTasks | sre_copilot.py:155-269 | the task list `TaskList`: four tasks, one per agent in order, with contexts triage, then triage and investigation, then analysis; every context precedes its task |
| Copilot.OutputOf | sre_copilot.py:202-252 | a stage has an output iff an earlier task performed it, and the output is that of the first task that performed it |
| Copilot.ContextOutputs | sre_copilot.py:202-252 | context outputs are available iff every listed stage ran earlier; the k-th output is the output of the k-th listed stage |
| Copilot.RunSequential | sre_copilot.py:275 | a sequential run gives one output per task; task i's output is what it produces from the outputs of its context stages among the tasks before it |
| Copilot.CompletedRunRespectsContexts | sre_copilot.py:271-280 | a completed sequential run had every task's context performed by an earlier task |
| Copilot.OrderedContextsComplete | sre_copilot.py:271-280 | when every task's context precedes it, the sequential run completes |
| Copilot.SequentialRunCompletes | sre_copilot.py:271-280 | a sequential run completes iff every task's context precedes it |
| Copilot.CreateCrew | sre_copilot.py:271-280 | the crew holds the agents and tasks, sequential, with memory and at most three iterations |
| Copilot.IncidentInputs | sre_copilot.py:288-290 | the single input is the incident context, or `Verificar alertas ativos` when it is missing or empty |
| Copilot.DefaultLlm | sre_copilot.py:51-60 | the default model is what `create_llm(provider)` gives; the extra default-provider lookup never raises after it |
| Copilot.DefaultProviderFollowsLlm | sre_copilot.py:54-55 | once a client is created, some provider is available |
| Copilot.ToolNames | sre_copilot.py:308 | the tool names, in registry order |
| Copilot.CurrentProvider | sre_copilot.py:301-304 | the configured provider, else the default provider, else `none` when that lookup raises |
| Copilot.SreCopilot.Status | sre_copilot.py:299-315 | the counts, tool names, sequential process, memory flag, provider, available providers and model class |
| Copilot.SreCopilot.RunIncidentResponse | sre_copilot.py:282-297 | one kickoff of the crew with the incident inputs; its result or exception is passed on |
| Copilot.StatusOfValidCopilot | sre_copilot.py:299-315 | a constructed copilot reports four agents, four tasks, a sequential process and memory enabled |
| Copilot.SreCopilot.constructor | sre_copilot.py:31-44 | the fields `__init__` assigns |
| Copilot.NewSreCopilot | sre_copilot.py:31-44 | construction succeeds iff the default model, the registry and the role models succeed; the object holds the available providers, the default model, the registry, agent i with role i, its role model and its tool filter, the task list `TaskList`, and a crew over them; a registry failure or a triage-model failure is the construction error |

## Left out

- Configuration loading (`_load_config`): it reads a YAML file that the object never uses afterwards. Whether the file opens is I/O, so the model starts after it.
- Output formatting (`print`) and the interactive entry points (`main` and the example scripts) are left out as I/O.
- Replies are structured values, not JSON text. `json.dumps`, its indentation and key order are not modelled.
- PyValue.Repr: it shows a string in single quotes without Python's escaping or its switch to double quotes, and floats are not represented.
- The Datadog, Kubernetes, Slack and Teams client libraries are not part of this model. What they return and raise is a parameter, and an error is its message text. The language-model client libraries are not part of this model either, and they are not a parameter (see the next line).
- LlmFactory.CreateOpenAiLlm / LlmFactory.CreateGeminiLlm: constructing the client is taken to succeed once the API key is set, so `langchain.llms.OpenAI`/`langchain_google_genai.GoogleGenerativeAI` raising for any other reason is not modelled. LlmFactory.RoleDoesNotDecideFailure and Copilot.CreateAgents, which checks only the triage model, rely on this.
- Copilot.Construct: it models only ValueError failures of the constructors. Other exceptions, such as an import error inside a client library, enter only through the `construct` parameter of `Copilot.Registry`.
- Notifiers.SlackRun: when a SlackApiError response carries no `error` key, the source raises a KeyError inside its own handler. The model takes the error value as given.
- Kubernetes timestamps are ISO strings or missing. The `isoformat()` call itself is not modelled.
- Datadog.LogsReply: the `to_dict()`-or-`str()` rendering of the logs object is the backend's business, so the reply holds what the backend returns.
- Copilot.RunSequential: it models the order of a sequential process and which earlier outputs each task receives as context. CrewAI's own engine (`kickoff`), agent reasoning, memory and iteration limits are not modelled. What a task produces from its inputs is the `perform` parameter.
- Kubernetes.PodsReply, Kubernetes.EventsReply, Kubernetes.DescribeReply, Kubernetes.DeploymentsReply: the record projections are total. The source turns an exception raised while projecting a record into the error reply, and the model leaves this out: a pod whose spec is None (tools.py:236-237), a deployment whose status is None (tools.py:400-401), or `json.dumps` failing on `to_dict()` output at tools.py:370. These replies fail only when the API call fails.
- LlmFactory.Lower: only ASCII capitals A-Z are lowered. Python's `str.lower()` also lowers non-ASCII capitals such as `Ä`, so for such provider names the text of the Unsupported-provider error differs.
- PyValue.Iterate: a JSON object with a repeated key yields that key twice. The same holds for PyValue.JoinValues and PyValue.Repr. The dict that `json.loads` builds holds the key once.
- Copilot.SreCopilot.Status: the `"unknown"` model type is not modelled. It only appears when `default_llm` was never assigned, and a constructed object always has one.
- Agent prose (roles, goals, backstories, task descriptions and expected outputs) is configuration text that is not modelled.
