/** The Django-Ninja adapter: construction (validation, defaults, component
    normalisation, platform registration), the platform configuration it
    reports, and the admission rules of its chat and upload handlers. */
module DjangoNinja {
  import opened Wrappers
  import opened Components
  import opened Registry

  const MissingComponents := "At least one of agents, teams, or workflows must be provided."
  const DefaultName := "Django Ninja App"
  const DefaultPrefix := "/agno"
  const AppType := "django-ninja"

  /** `s.rstrip('/')`: the longest prefix of `s` that does not end in '/'. */
  function RStripSlash(s: string): (r: string)
    ensures r <= s
    ensures r == [] || r[|r| - 1] != '/'
    ensures forall i :: |r| <= i < |s| ==> s[i] == '/'
  {
    if s != [] && s[|s| - 1] == '/' then RStripSlash(s[..|s| - 1]) else s
  }

  /** Stripping twice strips nothing more. */
  lemma RStripSlashIdempotent(s: string)
    ensures RStripSlash(RStripSlash(s)) == RStripSlash(s)
  {
  }

  // ---------------------------------------------------------------------------
  // Document readers

  datatype Reader = PdfReader | CsvReader | DocxReader | TextReader | JsonReader

  /** The content type each reader is chosen for. */
  function MimeOf(reader: Reader): string {
    match reader
    case PdfReader => "application/pdf"
    case CsvReader => "text/csv"
    case DocxReader => "application/vnd.openxmlformats-officedocument.wordprocessingml.document"
    case TextReader => "text/plain"
    case JsonReader => "application/json"
  }

  /** The reader `_process_uploaded_file` chooses for a content type, tried in
      the order pdf, csv, docx, text, json; None for every other type. */
  function ReaderFor(contentType: Option<string>): (r: Option<Reader>)
    ensures r.Some? ==> contentType == Some(MimeOf(r.value))
    ensures forall reader: Reader :: contentType == Some(MimeOf(reader)) ==> r == Some(reader)
  {
    if contentType == Some(MimeOf(PdfReader)) then Some(PdfReader)
    else if contentType == Some(MimeOf(CsvReader)) then Some(CsvReader)
    else if contentType == Some(MimeOf(DocxReader)) then Some(DocxReader)
    else if contentType == Some(MimeOf(TextReader)) then Some(TextReader)
    else if contentType == Some(MimeOf(JsonReader)) then Some(JsonReader)
    else None
  }

  /** Each of the five types has its own reader: no two readers share one. */
  lemma MimeOfInjective(r1: Reader, r2: Reader)
    ensures MimeOf(r1) == MimeOf(r2) ==> r1 == r2
  {
    if MimeOf(r1) == MimeOf(r2) {
      var m := MimeOf(r1);
      assert m[|m| - 1] == MimeOf(r2)[|m| - 1];
    }
  }

  /** A content type is accepted exactly when it is one of the five. */
  lemma ReaderForAccepts(contentType: Option<string>)
    ensures ReaderFor(contentType).Some? <==> exists reader: Reader :: contentType == Some(MimeOf(reader))
  {
  }

  /** `f"{file.content_type}"`: a missing content type prints as `None`. */
  function ContentTypeText(contentType: Option<string>): string {
    match contentType
    case None => "None"
    case Some(c) => c
  }

  /** `_process_uploaded_file` up to the reader: the reader to use, or the
      ValueError it raises for any other content type. */
  function ProcessUploadedFile(contentType: Option<string>): (r: Result<Reader, string>)
    ensures r.Success? ==> contentType == Some(MimeOf(r.value))
    ensures r.Failure? <==> forall reader: Reader :: contentType != Some(MimeOf(reader))
    ensures r.Failure? ==> r.error == "Unsupported file type: " + ContentTypeText(contentType)
  {
    match ReaderFor(contentType)
    case Some(reader) => Success(reader)
    case None => Failure("Unsupported file type: " + ContentTypeText(contentType))
  }

  // ---------------------------------------------------------------------------
  // Request handling

  /** The part of `request.user` the handlers read; `id` is the primary key. */
  datatype User = User(isAuthenticated: bool, id: nat)

  /** The body of a chat request. */
  datatype ChatRequest = ChatRequest(message: string, sessionId: Option<string>, userId: Option<string>, stream: bool)

  /** The arguments `run` is called with. */
  datatype RunArgs = RunArgs(message: string, sessionId: Option<string>, userId: Option<string>, stream: bool)

  /** Which component a chat endpoint serves: an agent (by `agent_id`) or a team
      (by `team_id`). */
  datatype ChatTarget = AgentTarget(agentId: Option<string>) | TeamTarget(teamId: Option<string>)

  datatype Response =
    | ChatResponse(content: string, agentId: Option<string>, teamId: Option<string>, sessionId: Option<string>)
    | UploadResponse(message: string, agentId: Option<string>)
    /** `{"error": ...}, status`. */
    | ErrorResponse(status: nat, error: string)

  const AuthRequired := "Authentication required"
  const NoKnowledge := "Agent has no knowledge base configured"

  /** The character of one decimal digit. */
  function DigitChar(d: nat): (c: char)
    requires d < 10
    ensures '0' <= c <= '9' && c as int - '0' as int == d
  {
    ('0' as int + d) as char
  }

  /** The number a string of decimal digits spells, most significant first:
      the reference reading of `str(n)`. */
  function DigitsValue(s: string): nat
    requires forall i :: 0 <= i < |s| ==> '0' <= s[i] <= '9'
  {
    if s == [] then 0 else DigitsValue(s[..|s| - 1]) * 10 + (s[|s| - 1] as int - '0' as int)
  }

  /** `str(n)` for a non-negative integer: the shortest run of decimal digits
      that spells `n`. */
  function Decimal(n: nat): (r: string)
    ensures r != []
    ensures forall i :: 0 <= i < |r| ==> '0' <= r[i] <= '9'
    ensures |r| > 1 ==> r[0] != '0'
    ensures DigitsValue(r) == n
  {
    if n < 10 then [DigitChar(n)]
    else
      var init := Decimal(n / 10);
      assert (init + [DigitChar(n % 10)])[..|init|] == init;
      init + [DigitChar(n % 10)]
  }

  /** The admission gate shared by every handler: with `require_auth`, an
      anonymous user is turned away. */
  predicate Admitted(requireAuth: bool, user: User) {
    !requireAuth || user.isAuthenticated
  }

  /** `data.session_id or request.session.session_key`. */
  function SessionIdFor(data: ChatRequest, sessionKey: Option<string>): (r: Option<string>)
    ensures !Falsy(data.sessionId) ==> r == data.sessionId
    ensures Falsy(data.sessionId) ==> r == sessionKey
  {
    OrElse(data.sessionId, sessionKey)
  }

  /** `data.user_id or (str(request.user.id) if request.user.is_authenticated else None)`. */
  function UserIdFor(data: ChatRequest, user: User): (r: Option<string>)
    ensures !Falsy(data.userId) ==> r == data.userId
    ensures Falsy(data.userId) && user.isAuthenticated ==> r == Some(Decimal(user.id))
    ensures Falsy(data.userId) && !user.isAuthenticated ==> r == None
  {
    OrElse(data.userId, if user.isAuthenticated then Some(Decimal(user.id)) else None)
  }

  /** `agent_chat` and `team_chat`. `run` stands for the component's `run`,
      giving the response content or the message of the exception it raised.
      The second result is the arguments `run` was called with, None when it
      was not called. */
  function Chat(requireAuth: bool, target: ChatTarget, user: User, sessionKey: Option<string>,
                data: ChatRequest, run: RunArgs -> Result<string, string>): (r: (Response, Option<RunArgs>))
    ensures r.1 == None <==> !Admitted(requireAuth, user)
    ensures r.1 == None ==> r.0 == ErrorResponse(401, AuthRequired)
    ensures r.1.Some? ==> r.1.value == RunArgs(data.message, SessionIdFor(data, sessionKey), UserIdFor(data, user), data.stream)
    ensures r.1.Some? && run(r.1.value).Failure? ==> r.0 == ErrorResponse(500, run(r.1.value).error)
    ensures r.1.Some? && run(r.1.value).Success? ==>
      && r.0.ChatResponse?
      && r.0.content == run(r.1.value).value
      && r.0.sessionId == r.1.value.sessionId
      && r.0.agentId == (if target.AgentTarget? then target.agentId else None)
      && r.0.teamId == (if target.TeamTarget? then target.teamId else None)
  {
    if !Admitted(requireAuth, user) then (ErrorResponse(401, AuthRequired), None)
    else
      var args := RunArgs(data.message, SessionIdFor(data, sessionKey), UserIdFor(data, user), data.stream);
      match run(args)
      case Failure(e) => (ErrorResponse(500, e), Some(args))
      case Success(content) =>
        match target
        case AgentTarget(agentId) => (ChatResponse(content, agentId, None, args.sessionId), Some(args))
        case TeamTarget(teamId) => (ChatResponse(content, None, teamId, args.sessionId), Some(args))
  }

  /** Without `require_auth` an anonymous caller still gets a run, and its user
      id is only what the request names. */
  lemma AnonymousRunWithoutAuth(target: ChatTarget, user: User, sessionKey: Option<string>,
                                data: ChatRequest, run: RunArgs -> Result<string, string>)
    requires !user.isAuthenticated
    ensures Chat(false, target, user, sessionKey, data, run).1 ==
      Some(RunArgs(data.message, SessionIdFor(data, sessionKey), if Falsy(data.userId) then None else data.userId, data.stream))
  {
  }

  /** An uploaded file: its name and its content type (None when absent). */
  datatype UploadedFile = UploadedFile(name: string, contentType: Option<string>)

  /** `agent_upload`. `ingest` stands for reading the file with the chosen
      reader and `knowledge.load_documents`, giving the message of the
      exception either raised, or None. The second result is the reader used,
      None when none was. */
  function Upload(requireAuth: bool, agent: Agent, user: User, file: UploadedFile,
                  ingest: Reader -> Option<string>): (r: (Response, Option<Reader>))
    ensures !Admitted(requireAuth, user) ==> r == (ErrorResponse(401, AuthRequired), None)
    ensures Admitted(requireAuth, user) && !agent.hasKnowledge ==> r == (ErrorResponse(400, NoKnowledge), None)
    ensures r.1.Some? <==> Admitted(requireAuth, user) && agent.hasKnowledge && ReaderFor(file.contentType).Some?
    ensures r.1.Some? ==> file.contentType == Some(MimeOf(r.1.value))
    ensures r.1.Some? && ingest(r.1.value).None? ==>
      r.0 == UploadResponse("File " + file.name + " uploaded successfully", agent.agentId)
    ensures r.1.Some? && ingest(r.1.value).Some? ==> r.0 == ErrorResponse(500, ingest(r.1.value).value)
    ensures Admitted(requireAuth, user) && agent.hasKnowledge && ReaderFor(file.contentType).None? ==>
      r.0 == ErrorResponse(500, "Unsupported file type: " + ContentTypeText(file.contentType))
  {
    if !Admitted(requireAuth, user) then (ErrorResponse(401, AuthRequired), None)
    else if !agent.hasKnowledge then (ErrorResponse(400, NoKnowledge), None)
    else
      match ProcessUploadedFile(file.contentType)
      case Failure(e) => (ErrorResponse(500, e), None)
      case Success(reader) =>
        match ingest(reader)
        case Some(e) => (ErrorResponse(500, e), Some(reader))
        case None => (UploadResponse("File " + file.name + " uploaded successfully", agent.agentId), Some(reader))
  }

  // ---------------------------------------------------------------------------
  // Platform configuration

  /** The agents section: one entry per agent, in order. */
  function AgentEntries(agents: seq<Agent>): (r: seq<Json>)
    reads AgentSet(agents)
    ensures |r| == |agents|
    ensures forall i :: 0 <= i < |agents| ==> r[i] == JObject(AgentEntry(agents[i]))
  {
    if agents == [] then []
    else AgentEntries(agents[..|agents| - 1]) + [JObject(AgentEntry(agents[|agents| - 1]))]
  }

  /** The teams section: one entry per team, in order. */
  function TeamEntries(teams: seq<Team>): (r: seq<Json>)
    ensures |r| == |teams|
    ensures forall i :: 0 <= i < |teams| ==> r[i] == JObject(TeamEntry(teams[i]))
  {
    if teams == [] then []
    else TeamEntries(teams[..|teams| - 1]) + [JObject(TeamEntry(teams[|teams| - 1]))]
  }

  function WorkflowEntry(w: Workflow): map<string, Json>
    reads w
  {
    map["workflow_id" := OptString(w.workflowId), "name" := OptString(w.name)]
  }

  /** The workflows section: one entry per workflow, in order, each with
      exactly its `workflow_id` and `name`. */
  function WorkflowEntries(workflows: seq<Workflow>): (r: seq<Json>)
    reads WorkflowSet(workflows)
    ensures |r| == |workflows|
    ensures forall i :: 0 <= i < |workflows| ==>
      && r[i].JObject?
      && r[i].fields.Keys == {"workflow_id", "name"}
      && r[i].fields["workflow_id"] == OptString(workflows[i].workflowId)
      && r[i].fields["name"] == OptString(workflows[i].name)
  {
    if workflows == [] then []
    else WorkflowEntries(workflows[..|workflows| - 1]) + [JObject(WorkflowEntry(workflows[|workflows| - 1]))]
  }

  /** A section holds its entries, or null when there are none. */
  function Section(entries: seq<Json>): (r: Json)
    ensures r == JNull <==> entries == []
    ensures entries != [] ==> r == JList(entries)
  {
    if entries == [] then JNull else JList(entries)
  }

  /** The adapter's own state: set once by the constructor and never updated. */
  datatype DjangoNinjaApp = DjangoNinjaApp(
    agents: seq<Agent>,
    teams: seq<Team>,
    workflows: seq<Workflow>,
    prefix: string,
    appId: string,
    name: Option<string>,
    description: Option<string>,
    requireAuth: bool,
    monitoring: bool)
  {
    /** `_to_dict()`: every key is always present; a section is null exactly
        when its list is empty. */
    function ToDict(): (r: map<string, Json>)
      reads AgentSet(agents), WorkflowSet(workflows)
      ensures r.Keys == {"type", "description", "prefix", "agents", "teams", "workflows"}
      ensures r["type"] == JString(AppType)
      ensures r["description"] == OptString(description) && r["prefix"] == JString(prefix)
      ensures r["agents"] == JNull <==> agents == []
      ensures r["teams"] == JNull <==> teams == []
      ensures r["workflows"] == JNull <==> workflows == []
      ensures agents != [] ==> r["agents"] == JList(AgentEntries(agents))
      ensures teams != [] ==> r["teams"] == JList(TeamEntries(teams))
      ensures workflows != [] ==> r["workflows"] == JList(WorkflowEntries(workflows))
    {
      map[
        "type" := JString(AppType),
        "description" := OptString(description),
        "prefix" := JString(prefix),
        "agents" := Section(AgentEntries(agents)),
        "teams" := Section(TeamEntries(teams)),
        "workflows" := Section(WorkflowEntries(workflows))
      ]
    }

    /** The `create_app` call `_register_on_platform` makes. */
    function CreateAppCall(): (c: Call)
      reads AgentSet(agents), WorkflowSet(workflows)
      ensures c.CreateApp? && c.appId == Some(appId) && c.config == ToDict()
      ensures c.name == if Falsy(name) then Some(DefaultName) else name
    {
      CreateApp(OrElse(name, Some(DefaultName)), Some(appId), ToDict())
    }

    /** The calls `_register_on_platform` makes: `create_app`, then, unless it
        raised, every agent, team and workflow registered in order until one
        raises. */
    function PlatformCalls(createAppFails: bool, failing: set<object>): (r: seq<Call>)
      reads AgentSet(agents), WorkflowSet(workflows)
      ensures r != [] && r[0] == CreateAppCall()
      ensures createAppFails ==> r == [CreateAppCall()]
      ensures !createAppFails ==> r[1..] == UntilFailure(RegistrationCalls(agents, teams, workflows), failing)
    {
      [CreateAppCall()] + if createAppFails then [] else UntilFailure(RegistrationCalls(agents, teams, workflows), failing)
    }

    /** `_register_on_platform`. Every exception ends the attempt and is
        swallowed, so the method always returns normally. */
    method RegisterOnPlatform(createAppFails: bool, failing: set<object>) returns (made: seq<Call>)
      ensures made == PlatformCalls(createAppFails, failing)
    {
      var registered: seq<Call> := [];
      if !createAppFails {
        var raised;
        registered, raised := RegisterAll(agents, teams, workflows, failing);
      }
      made := [CreateAppCall()] + registered;
    }
  }

  /** `DjangoNinjaApp(...)`, with the constructor's defaults (no components,
      prefix "/agno", no app id, name or description, authentication
      required, monitoring on): a ValueError when no component is given;
      otherwise the lists default to `[]`, trailing slashes leave the prefix,
      a falsy `app_id` is replaced by `uuid`, the components are normalised
      (an agent member takes its team's `team_id`) and, with monitoring, the
      app is registered on the platform, making the calls `RegisterOnPlatform`
      makes (`PlatformCalls`). `createAppFails` and `failing` say
      which platform calls raise; `made` is every call made, in order. */
  method Create(uuid: Id, generateId: Option<string> -> Id, createAppFails: bool, failing: set<object>,
                agents: Option<seq<Agent>> := None, teams: Option<seq<Team>> := None,
                workflows: Option<seq<Workflow>> := None, prefix: string := DefaultPrefix,
                appId: Option<string> := None, name: Option<string> := None,
                description: Option<string> := None, requireAuth: bool := true, monitoring: bool := true)
    returns (r: Result<DjangoNinjaApp, string>, made: seq<Call>)
    modifies AgentSet(OrEmpty(agents))`appId, TeamSet(OrEmpty(teams))`appId,
      AgentSet(MemberAgents(OrEmpty(teams)))`appId, AgentSet(MemberAgents(OrEmpty(teams)))`teamId,
      WorkflowSet(OrEmpty(workflows))`appId, WorkflowSet(OrEmpty(workflows))`workflowId
    ensures r.Failure? <==> Absent(agents) && Absent(teams) && Absent(workflows)
    ensures r.Failure? ==> r.error == MissingComponents && made == []
    ensures r.Success? ==>
      var app := r.value;
      && app == DjangoNinjaApp(OrEmpty(agents), OrEmpty(teams), OrEmpty(workflows), RStripSlash(prefix),
                               if Falsy(appId) then uuid else appId.value, name, description, requireAuth, monitoring)
      && ComponentsNormalised(app.agents, app.teams, app.appId, AssignTeamId,
                              old(AgentsIds(TouchedAgents(OrEmpty(agents), OrEmpty(teams)))),
                              old(TeamsAppIds(TeamSet(OrEmpty(teams)))))
      && WorkflowsNormalised(app.workflows, app.appId, generateId, old(WorkflowsIds(WorkflowSet(OrEmpty(workflows)))))
      && made ==
        InitCalls(app.agents, app.teams) + GenerateCalls(app.workflows, old(LackingIds(OrEmpty(workflows)))) +
        (if monitoring then app.PlatformCalls(createAppFails, failing) else [])
  {
    if Absent(agents) && Absent(teams) && Absent(workflows) {
      return Failure(MissingComponents), [];
    }
    var app := DjangoNinjaApp(OrEmpty(agents), OrEmpty(teams), OrEmpty(workflows), RStripSlash(prefix),
                              if Falsy(appId) then uuid else appId.value, name, description, requireAuth, monitoring);
    made := Normalise(app.agents, app.teams, app.workflows, app.appId, AssignTeamId, generateId);
    if monitoring {
      made := made + app.PlatformCalls(createAppFails, failing);
    }
    r := Success(app);
  }

  /** After construction every workflow has a usable `workflow_id`, so the
      workflows section of `_to_dict()` carries no null id. */
  lemma WorkflowIdsSet(workflows: seq<Workflow>, appId: string, generateId: Option<string> -> Id,
                       before: map<Workflow, WorkflowIds>)
    requires WorkflowSet(workflows) <= before.Keys
    requires WorkflowsNormalised(workflows, appId, generateId, before)
    ensures forall w :: w in workflows ==> !Falsy(w.workflowId)
  {
  }
}
