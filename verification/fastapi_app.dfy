/** The FastAPI adapter: several agents, teams and workflows, normalised at
    construction (agent members lose their `team_id`), and `serve`, which
    registers everything before starting the server. */
module FastApi {
  import opened Wrappers
  import opened Components
  import opened Registry
  import opened BaseApp

  const MissingComponents := "Either agents, teams or workflows must be provided."
  const AppType := "fastapi"
  const DefaultHost := "localhost"
  const DefaultPort := 7777

  class FastApiApp {
    /** The lists exactly as given: an omitted kind stays None. */
    const agents: Option<seq<Agent>>
    const teams: Option<seq<Team>>
    const workflows: Option<seq<Workflow>>
    const name: Option<string>
    const description: Option<string>
    /** The `agent` and `team` attributes the inherited methods read. This
        constructor never calls `BaseAPIApp.__init__`, so they are never set. */
    const attrs: Option<AgentAndTeam>
    var appId: Option<string>
    var monitoring: bool

    constructor (agents: Option<seq<Agent>>, teams: Option<seq<Team>>, workflows: Option<seq<Workflow>>,
                 name: Option<string>, description: Option<string>, appId: Option<string>, monitoring: bool)
      ensures this.agents == agents && this.teams == teams && this.workflows == workflows
      ensures this.name == name && this.description == description
      ensures this.appId == appId && this.monitoring == monitoring
      ensures attrs == None
    {
      this.agents := agents;
      this.teams := teams;
      this.workflows := workflows;
      this.name := name;
      this.description := description;
      this.attrs := None;
      this.appId := appId;
      this.monitoring := monitoring;
    }

    /** The inherited `set_app_id()`. */
    method SetAppId(uuid: Id) returns (id: string)
      modifies this`appId
      ensures appId == AppIdAfterSet(old(appId), uuid)
      ensures appId == Some(id)
    {
      if appId == None {
        appId := Some(uuid);
      }
      id := appId.value;
    }

    /** The inherited `_set_monitoring()`. */
    method SetMonitoring(monitorEnv: Option<string>)
      modifies this`monitoring
      ensures monitoring == MonitoringAfter(old(monitoring), monitorEnv)
    {
      if monitorEnv.Some? {
        monitoring := Lower(monitorEnv.value) == "true";
      }
    }

    /** The inherited `to_dict()` on this class: with the attributes never
        set, reading `self.agent` raises AttributeError. */
    function ToDict(): (r: Result<map<string, Json>, string>)
      reads AttrsAgent(attrs)
      ensures attrs == None ==> r == Failure(NoAgentAttribute)
    {
      InheritedToDict(attrs, Some(AppType), description)
    }

    /** The inherited `register_app_on_platform()`. With the attributes never
        set, `to_dict()` raises inside the `try` before `create_app` is
        reached, and the exception is swallowed: no app is ever created. */
    method RegisterAppOnPlatform(monitorEnv: Option<string>) returns (made: seq<Call>)
      modifies this`monitoring
      ensures monitoring == MonitoringAfter(old(monitoring), monitorEnv)
      ensures made == CreateAppCalls(monitoring, name, appId, ToDict())
      ensures attrs == None ==> made == []
    {
      SetMonitoring(monitorEnv);
      if !monitoring {
        return [];
      }
      match ToDict()
      case Failure(_) =>
        made := [];
      case Success(config) =>
        made := [CreateApp(name, appId, config)];
    }

    /** The payload `to_dict()` would yield had the constructor set `agent`
        and `team` (both None here): only the type and the description. */
    function IntendedToDict(): (r: map<string, Json>)
      ensures InheritedToDict(Some(AgentAndTeam(null, null)), Some(AppType), description) == Success(r)
      ensures "agents" !in r && "teams" !in r
      ensures "type" in r && r["type"] == JString(AppType)
      ensures "description" in r <==> description.Some?
    {
      Payload(null, null, Some(AppType), description)
    }

    /** `register_app_on_platform()` with the attributes set: one `create_app`
        call when monitoring is on, none otherwise. */
    method RegisterAppOnPlatformIntended(monitorEnv: Option<string>) returns (made: seq<Call>)
      modifies this`monitoring
      ensures monitoring == MonitoringAfter(old(monitoring), monitorEnv)
      ensures made == CreateAppCalls(monitoring, name, appId, Success(IntendedToDict()))
      ensures !monitoring ==> made == []
      ensures monitoring ==> made == [CreateApp(name, appId, IntendedToDict())]
    {
      SetMonitoring(monitorEnv);
      if !monitoring {
        return [];
      }
      made := [CreateApp(name, appId, IntendedToDict())];
    }

    /** What `register_app_on_platform()` makes once monitoring is settled. */
    function PlatformCalls(): seq<Call>
      reads this, AttrsAgent(attrs)
    {
      CreateAppCalls(monitoring, name, appId, ToDict())
    }

    /** What the intended `register_app_on_platform()` makes. */
    function IntendedPlatformCalls(): seq<Call>
      reads this
    {
      CreateAppCalls(monitoring, name, appId, Success(IntendedToDict()))
    }

    /** Every registration `serve` attempts, in list order. */
    function Registrations(): seq<Call>
    {
      RegistrationCalls(OrEmpty(agents), OrEmpty(teams), OrEmpty(workflows))
    }

    /** The calls `serve` makes after `set_app_id()`, given the calls the
        platform registration made: those, then the registrations until one
        raises, and `uvicorn.run` only if none did. */
    function ServeCalls(platform: seq<Call>, failing: set<object>, host: string, port: int, reload: bool)
      : seq<Call>
    {
      platform + UntilFailure(Registrations(), failing) +
      (if AnyRaises(Registrations(), failing) then [] else [RunServer(host, port, reload)])
    }

    /** `serve(app, host=..., port=..., reload=...)`: `set_app_id()`, then
        `register_app_on_platform()`, then every agent, team and workflow is
        registered in list order, then `uvicorn.run`. A registration that
        raises ends `serve` with that exception (`raised`), before the server
        is started. With the attributes never set, no `create_app` call is
        among the calls. */
    method Serve(uuid: Id, monitorEnv: Option<string>, failing: set<object>,
                 host: string := DefaultHost, port: int := DefaultPort, reload: bool := false)
      returns (raised: bool, made: seq<Call>)
      modifies this`appId, this`monitoring
      ensures appId == AppIdAfterSet(old(appId), uuid)
      ensures monitoring == MonitoringAfter(old(monitoring), monitorEnv)
      ensures raised <==> AnyRaises(Registrations(), failing)
      ensures made == ServeCalls(PlatformCalls(), failing, host, port, reload)
      ensures attrs == None ==> made == ServeCalls([], failing, host, port, reload)
    {
      var id := SetAppId(uuid);
      made := RegisterAppOnPlatform(monitorEnv);
      var registered;
      registered, raised := RegisterAll(OrEmpty(agents), OrEmpty(teams), OrEmpty(workflows), failing);
      made := made + registered;
      if raised {
        return;
      }
      made := made + [RunServer(host, port, reload)];
    }

    /** `serve` as intended: the same steps with the intended platform
        registration, which creates the app when monitoring is on. */
    method ServeIntended(uuid: Id, monitorEnv: Option<string>, failing: set<object>,
                         host: string := DefaultHost, port: int := DefaultPort, reload: bool := false)
      returns (raised: bool, made: seq<Call>)
      modifies this`appId, this`monitoring
      ensures appId == AppIdAfterSet(old(appId), uuid)
      ensures monitoring == MonitoringAfter(old(monitoring), monitorEnv)
      ensures raised <==> AnyRaises(Registrations(), failing)
      ensures made == ServeCalls(IntendedPlatformCalls(), failing, host, port, reload)
    {
      var id := SetAppId(uuid);
      made := RegisterAppOnPlatformIntended(monitorEnv);
      var registered;
      registered, raised := RegisterAll(OrEmpty(agents), OrEmpty(teams), OrEmpty(workflows), failing);
      made := made + registered;
      if raised {
        return;
      }
      made := made + [RunServer(host, port, reload)];
    }
  }

  /** Without any failing registration, `serve` makes its platform calls,
      registers each listed component once per occurrence, in order, and
      then starts the server as its very last call. */
  lemma ServeEndsWithServer(app: FastApiApp, platform: seq<Call>, host: string, port: int, reload: bool,
                            failing: set<object>)
    requires !AnyRaises(app.Registrations(), failing)
    ensures var calls := app.ServeCalls(platform, failing, host, port, reload);
      && |calls| == |platform| + |OrEmpty(app.agents)| + |OrEmpty(app.teams)| + |OrEmpty(app.workflows)| + 1
      && calls[..|platform|] == platform
      && calls[|platform|..|calls| - 1] == app.Registrations()
      && calls[|calls| - 1] == RunServer(host, port, reload)
  {
    UntilFailureShape(app.Registrations(), failing);
  }

  /** When a registration raises, `serve` never starts the server, and the
      raising registration is its last call. */
  lemma ServeStopsAtFailure(app: FastApiApp, platform: seq<Call>, host: string, port: int, reload: bool,
                            failing: set<object>)
    requires AnyRaises(app.Registrations(), failing)
    requires forall i :: 0 <= i < |platform| ==> platform[i].CreateApp?
    ensures var calls := app.ServeCalls(platform, failing, host, port, reload);
      && RunServer(host, port, reload) !in calls
      && calls != [] && Raises(calls[|calls| - 1], failing)
  {
    UntilFailureShape(app.Registrations(), failing);
    assert app.ServeCalls(platform, failing, host, port, reload) == platform + UntilFailure(app.Registrations(), failing);
    AttemptedRegistrationsOnly(OrEmpty(app.agents), OrEmpty(app.teams), OrEmpty(app.workflows), failing,
                               RunServer(host, port, reload));
  }

  /** `FastAPIApp(...)`: a ValueError when no component is given; otherwise
      the lists are kept as given, the app id is set and the components are
      normalised: an agent member's `team_id` is cleared. */
  method Create(uuid: Id, generateId: Option<string> -> Id,
                agents: Option<seq<Agent>> := None, teams: Option<seq<Team>> := None,
                workflows: Option<seq<Workflow>> := None, appId: Option<string> := None,
                name: Option<string> := None, description: Option<string> := None, monitoring: bool := true)
    returns (r: Result<FastApiApp, string>, made: seq<Call>)
    modifies AgentSet(OrEmpty(agents))`appId, TeamSet(OrEmpty(teams))`appId,
      AgentSet(MemberAgents(OrEmpty(teams)))`appId, AgentSet(MemberAgents(OrEmpty(teams)))`teamId,
      WorkflowSet(OrEmpty(workflows))`appId, WorkflowSet(OrEmpty(workflows))`workflowId
    ensures r.Failure? <==> Absent(agents) && Absent(teams) && Absent(workflows)
    ensures r.Failure? ==> r.error == MissingComponents && made == []
    ensures r.Success? ==>
      var app := r.value;
      && fresh(app)
      && app.agents == agents && app.teams == teams && app.workflows == workflows
      && app.name == name && app.description == description && app.monitoring == monitoring
      && app.attrs == None
      && app.appId == AppIdAfterSet(appId, uuid)
      && ComponentsNormalised(OrEmpty(agents), OrEmpty(teams), app.appId.value, ResetTeamId,
                              old(AgentsIds(TouchedAgents(OrEmpty(agents), OrEmpty(teams)))),
                              old(TeamsAppIds(TeamSet(OrEmpty(teams)))))
      && WorkflowsNormalised(OrEmpty(workflows), app.appId.value, generateId,
                             old(WorkflowsIds(WorkflowSet(OrEmpty(workflows)))))
      && made == InitCalls(OrEmpty(agents), OrEmpty(teams)) +
        GenerateCalls(OrEmpty(workflows), old(LackingIds(OrEmpty(workflows))))
  {
    if Absent(agents) && Absent(teams) && Absent(workflows) {
      return Failure(MissingComponents), [];
    }
    ghost var agentsBefore := AgentsIds(TouchedAgents(OrEmpty(agents), OrEmpty(teams)));
    ghost var teamsBefore := TeamsAppIds(TeamSet(OrEmpty(teams)));
    ghost var workflowsBefore := WorkflowsIds(WorkflowSet(OrEmpty(workflows)));
    ghost var lacking := LackingIds(OrEmpty(workflows));
    var app := new FastApiApp(agents, teams, workflows, name, description, appId, monitoring);
    var id := app.SetAppId(uuid);
    assert AgentsIds(TouchedAgents(OrEmpty(agents), OrEmpty(teams))) == agentsBefore;
    assert TeamsAppIds(TeamSet(OrEmpty(teams))) == teamsBefore;
    assert WorkflowsIds(WorkflowSet(OrEmpty(workflows))) == workflowsBefore;
    assert LackingIds(OrEmpty(workflows)) == lacking;
    made := Normalise(OrEmpty(agents), OrEmpty(teams), OrEmpty(workflows), id, ResetTeamId, generateId);
    r := Success(app);
  }
}
