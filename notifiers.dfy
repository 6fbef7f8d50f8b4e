/** The notification adapters (`SlackNotifierTool`, `TeamsNotifierTool`): the
    credential checks of their constructors, the incident-report formatters,
    the Teams card with its colour rule, and what `_run` answers for each
    outcome of the delivery call. The Slack client and the Teams webhook are
    parameters.

    The decorative headers are the code points the formatter literals hold in
    the source as it is stored: each emoji and accented letter appears as its
    UTF-8 bytes read back as Windows-1254 text (the siren is "ğŸš¨"). The layout
    lemmas do not depend on them. */
module Notifiers {
  import opened Wrappers
  import opened Environment
  import opened PyValue

  const SlackToolName := "slack_notifier"
  const TeamsToolName := "teams_notifier"

  datatype SlackTool = SlackTool(token: string)

  datatype TeamsTool = TeamsTool(webhookUrl: string)

  /** The constructor of the Slack adapter: `SLACK_BOT_TOKEN` must be set and non-empty. */
  function NewSlackTool(env: Env): (r: Result<SlackTool, Exception>)
    ensures r.Ok? <==> IsSet(env, "SLACK_BOT_TOKEN")
    ensures r.Ok? ==> r.value.token == env["SLACK_BOT_TOKEN"]
    ensures r.Err? ==> r.error == ValueError("SLACK_BOT_TOKEN environment variable is required")
  {
    var token := GetEnv(env, "SLACK_BOT_TOKEN");
    if token.GetOr("") == "" then Err(ValueError("SLACK_BOT_TOKEN environment variable is required"))
    else Ok(SlackTool(token.value))
  }

  /** The constructor of the Teams adapter: `TEAMS_WEBHOOK_URL` must be set and non-empty. */
  function NewTeamsTool(env: Env): (r: Result<TeamsTool, Exception>)
    ensures r.Ok? <==> IsSet(env, "TEAMS_WEBHOOK_URL")
    ensures r.Ok? ==> r.value.webhookUrl == env["TEAMS_WEBHOOK_URL"]
    ensures r.Err? ==> r.error == ValueError("TEAMS_WEBHOOK_URL environment variable is required")
  {
    var url := GetEnv(env, "TEAMS_WEBHOOK_URL");
    if url.GetOr("") == "" then Err(ValueError("TEAMS_WEBHOOK_URL environment variable is required"))
    else Ok(TeamsTool(url.value))
  }

  // ---------------------------------------------------------------- report text

  const Siren := "\U{11F}\U{178}\U{161}\U{A8}"
  const Magnifier := "\U{11F}\U{178}\U{201D}"
  const HammerAndWrench := "\U{11F}\U{178}\U{203A}\U{A0}\U{EF}\U{B8}"
  const People := "\U{11F}\U{178}\U{2018}\U{A5}"
  const Chart := "\U{11F}\U{178}\U{201C}\U{160}"
  const Bullet := "\U{E2}\U{20AC}\U{A2} "
  const StartLabel := "In\U{C3}\U{AD}cio:"
  const ServicesLabel := "Servi\U{C3}\U{A7}os Afetados:"
  const ActionsLabel := "A\U{C3}\U{A7}\U{C3}\U{B5}es Tomadas:"

  /** The interpolated values both formatters share, already rendered. */
  datatype ReportFields = ReportFields(
    status: string,
    startTime: string,
    services: string,
    rootCause: string,
    actions: string,
    teams: string)

  /** One line per action: `f'• {action}'`. */
  function Bullets(items: seq<Json>): (lines: seq<string>)
    ensures |lines| == |items|
    ensures forall k :: 0 <= k < |items| ==> lines[k] == Bullet + PyStr(items[k])
  {
    seq(|items|, k requires 0 <= k < |items| => Bullet + PyStr(items[k]))
  }

  /** The f-string's interpolations, left to right; the first one that raises
      is the TypeError of the whole formatter. */
  function ReportFieldsOf(report: Members): (r: Result<ReportFields, string>)
    ensures r.Ok? <==>
      JoinValues(", ", Get(report, "affected_services", JArr([]))).Ok?
      && Iterate(Get(report, "actions_taken", JArr([]))).Ok?
      && JoinValues(", ", Get(report, "teams", JArr([]))).Ok?
    ensures r.Ok? ==> r.value.status == PyStr(Get(report, "status", JStr("UNKNOWN")))
    ensures r.Ok? ==> r.value.actions == Join("\n", Bullets(Iterate(Get(report, "actions_taken", JArr([]))).value))
    ensures r.Ok? ==> r.value.startTime == PyStr(Get(report, "start_time", JStr("N/A")))
    ensures r.Ok? ==> r.value.services == JoinValues(", ", Get(report, "affected_services", JArr([]))).value
    ensures r.Ok? ==> r.value.rootCause == PyStr(Get(report, "root_cause", JStr("Investigating...")))
    ensures r.Ok? ==> r.value.teams == JoinValues(", ", Get(report, "teams", JArr([]))).value
    ensures JoinValues(", ", Get(report, "affected_services", JArr([]))).Err? ==>
      r == Err(JoinValues(", ", Get(report, "affected_services", JArr([]))).error)
    ensures (JoinValues(", ", Get(report, "affected_services", JArr([]))).Ok?
             && Iterate(Get(report, "actions_taken", JArr([]))).Err?) ==>
      r == Err(Iterate(Get(report, "actions_taken", JArr([]))).error)
    ensures (JoinValues(", ", Get(report, "affected_services", JArr([]))).Ok?
             && Iterate(Get(report, "actions_taken", JArr([]))).Ok?
             && JoinValues(", ", Get(report, "teams", JArr([]))).Err?) ==>
      r == Err(JoinValues(", ", Get(report, "teams", JArr([]))).error)
  {
    var status := PyStr(Get(report, "status", JStr("UNKNOWN")));
    var start := PyStr(Get(report, "start_time", JStr("N/A")));
    var services :- JoinValues(", ", Get(report, "affected_services", JArr([])));
    var rootCause := PyStr(Get(report, "root_cause", JStr("Investigating...")));
    var actionItems :- Iterate(Get(report, "actions_taken", JArr([])));
    var teams :- JoinValues(", ", Get(report, "teams", JArr([])));
    Ok(ReportFields(status, start, services, rootCause, Join("\n", Bullets(actionItems)), teams))
  }

  /** The first line of both reports; `e` is the emphasis marker. */
  function StatusLine(e: string, f: ReportFields): string {
    e + "Status:" + e + " " + f.status + "\n"
  }

  /** The part of the template from the status line up to the action list. */
  function Top(e: string, f: ReportFields): string {
    StatusLine(e, f)
    + (e + StartLabel + e + " " + f.startTime + "\n"
       + e + ServicesLabel + e + " " + f.services + "\n\n"
       + e + Magnifier + " Causa Raiz:" + e + "\n" + f.rootCause + "\n\n"
       + e + HammerAndWrench + " " + ActionsLabel + e + "\n")
  }

  /** The heading after the action list. */
  function TeamsHeading(e: string): string {
    "\n\n" + e + People + " Equipes Envolvidas:" + e
  }

  const SlackBanner := Siren + " *INCIDENT ALERT* " + Siren
  const DashboardsHeading := "\n\n*" + Chart + " Dashboards:*"

  /** The Slack report text before the action list. */
  function SlackLead(f: ReportFields): string {
    SlackBanner + ("\n\n" + Top("*", f))
  }

  /** The Slack report text after the action list, up to the dashboard links. */
  function SlackRest(f: ReportFields): string {
    TeamsHeading("*") + "\n" + f.teams + DashboardsHeading
  }

  /** The Slack report before its tail of dashboard links. */
  function SlackBody(f: ReportFields): string {
    SlackLead(f) + f.actions + SlackRest(f)
  }

  /** The Slack template as the f-string builds it. */
  function SlackTemplate(f: ReportFields, dashboards: string): string {
    "\n" + SlackBody(f) + ("\n" + dashboards + "\n")
  }

  /** `SlackNotifierTool._format_incident_report`. */
  function FormatSlackReport(report: Members): (r: Result<string, string>)
    ensures r.Ok? <==> ReportFieldsOf(report).Ok? && JoinValues("\n", Get(report, "dashboard_links", JArr([]))).Ok?
    ensures ReportFieldsOf(report).Err? ==> r == Err(ReportFieldsOf(report).error)
    ensures ReportFieldsOf(report).Ok? && JoinValues("\n", Get(report, "dashboard_links", JArr([]))).Err? ==>
      r == Err(JoinValues("\n", Get(report, "dashboard_links", JArr([]))).error)
    ensures r.Ok? ==>
      var f := ReportFieldsOf(report).value;
      r.value == SlackBody(f) + TrimEnd("\n" + JoinValues("\n", Get(report, "dashboard_links", JArr([]))).value + "\n")
    ensures r.Ok? ==> StartsWith(r.value, SlackBanner + "\n\n" + StatusLine("*", ReportFieldsOf(report).value))
  {
    var f :- ReportFieldsOf(report);
    var dashboards :- JoinValues("\n", Get(report, "dashboard_links", JArr([])));
    SlackTemplateStrip(f, dashboards);
    Ok(Strip(SlackTemplate(f, dashboards)))
  }

  /** The Teams report before its tail of team names. */
  function TeamsBody(f: ReportFields): string {
    Top("**", f) + f.actions + TeamsHeading("**")
  }

  /** The Teams template as the f-string builds it: no banner, no dashboards. */
  function TeamsTemplate(f: ReportFields): string {
    "\n" + TeamsBody(f) + ("\n" + f.teams + "\n")
  }

  /** `TeamsNotifierTool._format_incident_report`. */
  function FormatTeamsReport(report: Members): (r: Result<string, string>)
    ensures r.Ok? <==> ReportFieldsOf(report).Ok?
    ensures r.Err? ==> r.error == ReportFieldsOf(report).error
    ensures r.Ok? ==>
      var f := ReportFieldsOf(report).value;
      r.value == TeamsBody(f) + TrimEnd("\n" + f.teams + "\n")
    ensures r.Ok? ==> StartsWith(r.value, StatusLine("**", ReportFieldsOf(report).value))
  {
    var f :- ReportFieldsOf(report);
    TeamsTemplateStrip(f);
    Ok(Strip(TeamsTemplate(f)))
  }

  lemma PrefixOfConcat(a: string, b: string, p: string)
    requires StartsWith(a, p)
    ensures StartsWith(a + b, p)
  {
    assert (a + b)[..|p|] == a[..|p|];
  }

  /** Stripping the Slack template removes the leading newline and the
      whitespace after the last dashboard link, and nothing else. */
  lemma SlackTemplateStrip(f: ReportFields, dashboards: string)
    ensures Strip(SlackTemplate(f, dashboards)) == SlackBody(f) + TrimEnd("\n" + dashboards + "\n")
    ensures StartsWith(Strip(SlackTemplate(f, dashboards)), SlackBanner + "\n\n" + StatusLine("*", f))
  {
    var body := SlackBody(f);
    assert body[0] == SlackBanner[0] == '\U{11F}';
    assert body[|body| - 1] == DashboardsHeading[|DashboardsHeading| - 1] == '*';
    StripNewlineFramed(body, "\n" + dashboards + "\n");
    var head := SlackBanner + "\n\n" + StatusLine("*", f);
    assert SlackLead(f) == head + (SlackLead(f)[|head|..]);
    PrefixOfConcat(SlackLead(f), f.actions, head);
    PrefixOfConcat(SlackLead(f) + f.actions, SlackRest(f), head);
    PrefixOfConcat(body, TrimEnd("\n" + dashboards + "\n"), head);
  }

  /** Stripping the Teams template removes the leading newline and the
      whitespace after the last team name, and nothing else. */
  lemma TeamsTemplateStrip(f: ReportFields)
    ensures Strip(TeamsTemplate(f)) == TeamsBody(f) + TrimEnd("\n" + f.teams + "\n")
    ensures StartsWith(Strip(TeamsTemplate(f)), StatusLine("**", f))
  {
    var body := TeamsBody(f);
    assert body[0] == StatusLine("**", f)[0] == '*';
    assert body[|body| - 1] == TeamsHeading("**")[|TeamsHeading("**")| - 1] == '*';
    StripNewlineFramed(body, "\n" + f.teams + "\n");
    var head := StatusLine("**", f);
    assert Top("**", f)[..|head|] == head;
    PrefixOfConcat(Top("**", f), f.actions, head);
    PrefixOfConcat(Top("**", f) + f.actions, TeamsHeading("**"), head);
    PrefixOfConcat(body, TrimEnd("\n" + f.teams + "\n"), head);
  }

  /** A line of the action list is a line of any text the list is part of. */
  lemma ActionLineInText(items: seq<Json>, k: nat, before: string, after: string, text: string)
    requires k < |items|
    requires text == before + Join("\n", Bullets(items)) + after
    ensures IsInfix(Bullet + PyStr(items[k]), text)
  {
    var actions := Join("\n", Bullets(items));
    var line := Bullet + PyStr(items[k]);
    InfixOfConcat(before, actions, after);
    JoinContainsPart("\n", Bullets(items), k);
    var pre: string :| InfixAt(line, actions, |pre|) && actions[..|pre|] == pre;
    InfixTransitive(line, actions, text, |pre|, |before|);
    var i: nat := |pre| + |before|;
    assert i <= |text| && InfixAt(line, text, i);
  }

  lemma Regroup(a: string, b: string, c: string, d: string)
    ensures a + b + c + d == a + b + (c + d)
  {
  }

  /** Every action taken shows up in the Slack report as a bullet line. */
  lemma SlackReportListsEveryAction(report: Members, k: nat)
    requires FormatSlackReport(report).Ok?
    requires k < |Iterate(Get(report, "actions_taken", JArr([]))).value|
    ensures IsInfix(Bullet + PyStr(Iterate(Get(report, "actions_taken", JArr([]))).value[k]), FormatSlackReport(report).value)
  {
    var f := ReportFieldsOf(report).value;
    var items := Iterate(Get(report, "actions_taken", JArr([]))).value;
    var tail := TrimEnd("\n" + JoinValues("\n", Get(report, "dashboard_links", JArr([]))).value + "\n");
    var text := FormatSlackReport(report).value;
    assert text == SlackLead(f) + f.actions + SlackRest(f) + tail;
    Regroup(SlackLead(f), f.actions, SlackRest(f), tail);
    ActionLineInText(items, k, SlackLead(f), SlackRest(f) + tail, text);
  }

  /** Every action taken shows up in the Teams report as a bullet line. */
  lemma TeamsReportListsEveryAction(report: Members, k: nat)
    requires FormatTeamsReport(report).Ok?
    requires k < |Iterate(Get(report, "actions_taken", JArr([]))).value|
    ensures IsInfix(Bullet + PyStr(Iterate(Get(report, "actions_taken", JArr([]))).value[k]), FormatTeamsReport(report).value)
  {
    var f := ReportFieldsOf(report).value;
    var items := Iterate(Get(report, "actions_taken", JArr([]))).value;
    var tail := TrimEnd("\n" + f.teams + "\n");
    var text := FormatTeamsReport(report).value;
    assert text == Top("**", f) + f.actions + TeamsHeading("**") + tail;
    Regroup(Top("**", f), f.actions, TeamsHeading("**"), tail);
    ActionLineInText(items, k, Top("**", f), TeamsHeading("**") + tail, text);
  }

  /** The keys the Teams formatter reads. */
  const TeamsReportKeys := ["status", "start_time", "affected_services", "root_cause", "actions_taken", "teams"]

  /** The Teams formatter never reads `dashboard_links` (nor any key but its six):
      two reports that agree on those keys give the same text, or the same error. */
  lemma TeamsReportReadsOnlyItsKeys(report: Members, other: Members)
    requires forall k :: 0 <= k < |TeamsReportKeys| ==> Lookup(report, TeamsReportKeys[k]) == Lookup(other, TeamsReportKeys[k])
    ensures FormatTeamsReport(report) == FormatTeamsReport(other)
  {
    assert Lookup(report, "status") == Lookup(other, "status") by { assert TeamsReportKeys[0] == "status"; }
    assert Lookup(report, "start_time") == Lookup(other, "start_time") by { assert TeamsReportKeys[1] == "start_time"; }
    assert Lookup(report, "affected_services") == Lookup(other, "affected_services") by { assert TeamsReportKeys[2] == "affected_services"; }
    assert Lookup(report, "root_cause") == Lookup(other, "root_cause") by { assert TeamsReportKeys[3] == "root_cause"; }
    assert Lookup(report, "actions_taken") == Lookup(other, "actions_taken") by { assert TeamsReportKeys[4] == "actions_taken"; }
    assert Lookup(report, "teams") == Lookup(other, "teams") by { assert TeamsReportKeys[5] == "teams"; }
    ReportFieldsReadSixKeys(report, other);
  }

  /** The report fields depend on the six report keys only. */
  lemma ReportFieldsReadSixKeys(report: Members, other: Members)
    requires Lookup(report, "status") == Lookup(other, "status")
    requires Lookup(report, "start_time") == Lookup(other, "start_time")
    requires Lookup(report, "affected_services") == Lookup(other, "affected_services")
    requires Lookup(report, "root_cause") == Lookup(other, "root_cause")
    requires Lookup(report, "actions_taken") == Lookup(other, "actions_taken")
    requires Lookup(report, "teams") == Lookup(other, "teams")
    ensures ReportFieldsOf(report) == ReportFieldsOf(other)
  {
  }

  // ---------------------------------------------------------------- Slack delivery

  /** The arguments of `chat_postMessage` (with `parse="full"`). */
  datatype SlackPost = SlackPost(channel: Json, text: Json)

  /** The outcome of `chat_postMessage`: the response, a `SlackApiError` with the
      response's `error` field, or any other exception. */
  datatype SlackOutcome = Posted(response: Members) | ApiError(error: Json) | Raised(message: string)

  datatype SlackReply = SlackSent(channel: Json, timestamp: Json) | SlackFailed(message: string)

  const SlackSentMessage := "Slack notification sent successfully"
  const SlackFailure := "Failed to send Slack notification: "

  /** The message `_run` posts: a dict `text` is formatted as an incident
      report, any other value is posted as it is. */
  function SlackRequest(message: string, data: Members): (r: Result<SlackPost, string>)
    ensures r.Ok? ==> r.value.channel == Get(data, "channel", JStr("#incidents"))
    ensures Lookup(data, "text").None? ==> r == Ok(SlackPost(Get(data, "channel", JStr("#incidents")), JStr(message)))
    ensures !Get(data, "text", JStr(message)).JObj? ==> r.Ok? && r.value.text == Get(data, "text", JStr(message))
    ensures Get(data, "text", JStr(message)).JObj? ==>
      var formatted := FormatSlackReport(Get(data, "text", JStr(message)).members);
      (r.Ok? <==> formatted.Ok?) && (r.Ok? ==> r.value.text == JStr(formatted.value)) && (r.Err? ==> r.error == formatted.error)
  {
    var channel := Get(data, "channel", JStr("#incidents"));
    var text := Get(data, "text", JStr(message));
    if text.JObj? then
      var formatted :- FormatSlackReport(text.members);
      Ok(SlackPost(channel, JStr(formatted)))
    else Ok(SlackPost(channel, text))
  }

  /** `SlackNotifierTool._run`. */
  function SlackRun(message: string, decode: string -> Result<Members, string>, post: SlackPost -> SlackOutcome): (r: SlackReply)
    ensures ParseInput(message, "text", decode).Err? ==> r == SlackFailed(SlackFailure + ParseInput(message, "text", decode).error)
    ensures ParseInput(message, "text", decode).Ok? ==>
      var req := SlackRequest(message, ParseInput(message, "text", decode).value);
      (req.Err? ==> r == SlackFailed(SlackFailure + req.error))
      && (req.Ok? && post(req.value).ApiError? ==> r == SlackFailed("Slack API error: " + PyStr(post(req.value).error)))
      && (req.Ok? && post(req.value).Raised? ==> r == SlackFailed(SlackFailure + post(req.value).message))
      && (req.Ok? && post(req.value).Posted? ==>
            var ts := Lookup(post(req.value).response, "ts");
            (ts.Some? ==> r == SlackSent(req.value.channel, ts.value))
            && (ts.None? ==> r == SlackFailed(SlackFailure + "'ts'")))
  {
    match ParseInput(message, "text", decode)
    case Err(e) => SlackFailed(SlackFailure + e)
    case Ok(data) =>
      match SlackRequest(message, data)
      case Err(e) => SlackFailed(SlackFailure + e)
      case Ok(req) =>
        match post(req)
        case ApiError(error) => SlackFailed("Slack API error: " + PyStr(error))
        case Raised(e) => SlackFailed(SlackFailure + e)
        case Posted(response) =>
          match Lookup(response, "ts")
          case None => SlackFailed(SlackFailure + "'ts'")
          case Some(ts) => SlackSent(req.channel, ts)
  }

  /** Plain text goes to `#incidents` verbatim. */
  lemma PlainSlackTextIsPostedVerbatim(message: string, decode: string -> Result<Members, string>)
    requires !StartsWithBrace(message)
    ensures SlackRequest(message, ParseInput(message, "text", decode).value) == Ok(SlackPost(JStr("#incidents"), JStr(message)))
  {
  }

  // ---------------------------------------------------------------- Teams delivery

  const TeamsTitle := Siren + " INCIDENT ALERT"

  /** What the connector card holds when it is sent. */
  datatype Card = Card(title: Option<string>, color: Option<string>, text: Json)

  datatype TeamsReply = TeamsSent | TeamsFailed(message: string)

  const TeamsSentMessage := "Teams notification sent successfully"
  const TeamsFailure := "Failed to send Teams notification: "

  /** Red for an active incident, green otherwise. */
  function TeamsColor(data: Members): (c: string)
    ensures c == "FF0000" <==> Lookup(data, "status") == Some(JStr("ATIVO"))
    ensures c == "00FF00" <==> Lookup(data, "status") != Some(JStr("ATIVO"))
  {
    if Get(data, "status", JNull) == JStr("ATIVO") then "FF0000" else "00FF00"
  }

  /** The card `_run` fills: an incident report when the data has a `status`
      key, otherwise its `text` (or the whole dict as text). */
  function TeamsCard(data: Members): (r: Result<Card, string>)
    ensures Lookup(data, "status").Some? ==>
      (r.Ok? <==> FormatTeamsReport(data).Ok?)
      && (r.Ok? ==> r.value == Card(Some(TeamsTitle), Some(TeamsColor(data)), JStr(FormatTeamsReport(data).value)))
      && (r.Err? ==> r.error == FormatTeamsReport(data).error)
    ensures Lookup(data, "status").None? ==>
      r.Ok? && r.value.title.None? && r.value.color.None?
      && (Lookup(data, "text").Some? ==> r.value.text == Lookup(data, "text").value)
      && (Lookup(data, "text").None? ==> r.value.text == JStr(PyStr(JObj(data))))
  {
    if Lookup(data, "status").Some? then
      var text :- FormatTeamsReport(data);
      Ok(Card(Some(TeamsTitle), Some(TeamsColor(data)), JStr(text)))
    else
      Ok(Card(None, None, Get(data, "text", JStr(PyStr(JObj(data))))))
  }

  /** `TeamsNotifierTool._run`. */
  function TeamsRun(message: string, decode: string -> Result<Members, string>, send: Card -> Result<(), string>): (r: TeamsReply)
    ensures ParseInput(message, "text", decode).Err? ==> r == TeamsFailed(TeamsFailure + ParseInput(message, "text", decode).error)
    ensures ParseInput(message, "text", decode).Ok? ==>
      var card := TeamsCard(ParseInput(message, "text", decode).value);
      (card.Err? ==> r == TeamsFailed(TeamsFailure + card.error))
      && (card.Ok? ==> (r == TeamsSent <==> send(card.value).Ok?))
      && (card.Ok? && send(card.value).Err? ==> r == TeamsFailed(TeamsFailure + send(card.value).error))
  {
    match ParseInput(message, "text", decode)
    case Err(e) => TeamsFailed(TeamsFailure + e)
    case Ok(data) =>
      match TeamsCard(data)
      case Err(e) => TeamsFailed(TeamsFailure + e)
      case Ok(card) =>
        match send(card)
        case Err(e) => TeamsFailed(TeamsFailure + e)
        case Ok(_) => TeamsSent
  }

  /** An active incident report is sent as a red card titled with the alert banner. */
  lemma ActiveIncidentIsRed(report: Members)
    requires Lookup(report, "status") == Some(JStr("ATIVO"))
    requires FormatTeamsReport(report).Ok?
    ensures TeamsCard(report).Ok? && TeamsCard(report).value.color == Some("FF0000")
    ensures TeamsCard(report).value.title == Some(TeamsTitle)
  {
  }
}
