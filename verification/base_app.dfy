/** The abstract API adapter every single-component integration builds on:
    exactly one agent or team, the app id, the monitoring switch read from the
    environment, platform registration and the platform payload. */
module BaseApp {
  import opened Wrappers
  import opened Components
  import opened Registry

  const NeitherGiven := "Either agent or team must be provided."
  const BothGiven := "Only one of agent or team can be provided."

  /** `str.lower()` on one character, for the ASCII letters. */
  function LowerChar(c: char): char {
    if 'A' <= c <= 'Z' then (c as int - 'A' as int + 'a' as int) as char else c
  }

  function Lower(s: string): (r: string)
    ensures |r| == |s|
    ensures forall i :: 0 <= i < |s| ==> r[i] == LowerChar(s[i])
  {
    if s == [] then [] else [LowerChar(s[0])] + Lower(s[1..])
  }

  /** `monitor_env.lower() == "true"`. */
  predicate MonitorFlag(value: string) {
    Lower(value) == "true"
  }

  /** The values that switch monitoring on are exactly the spellings of
      "true" in any mix of upper and lower case. */
  lemma MonitorFlagSpellings(value: string)
    ensures MonitorFlag(value) <==>
      && |value| == 4
      && (value[0] == 't' || value[0] == 'T')
      && (value[1] == 'r' || value[1] == 'R')
      && (value[2] == 'u' || value[2] == 'U')
      && (value[3] == 'e' || value[3] == 'E')
  {
  }

  /** `monitoring` after `_set_monitoring()`, given what `AGNO_MONITOR` holds. */
  function MonitoringAfter(monitoring: bool, monitorEnv: Option<string>): bool {
    match monitorEnv
    case None => monitoring
    case Some(value) => MonitorFlag(value)
  }

  /** `app_id` after `set_app_id()`: only None is replaced. */
  function AppIdAfterSet(appId: Option<string>, uuid: Id): Option<string> {
    if appId == None then Some(uuid) else appId
  }

  /** `set_app_id()` always leaves an id, never replaces one, and a second call
      changes nothing. */
  lemma AppIdAfterSetKeeps(appId: Option<string>, uuid: Id, uuid': Id)
    ensures AppIdAfterSet(appId, uuid).Some?
    ensures appId.Some? ==> AppIdAfterSet(appId, uuid) == appId
    ensures AppIdAfterSet(AppIdAfterSet(appId, uuid), uuid') == AppIdAfterSet(appId, uuid)
  {
  }

  /** `to_dict()` before its None-filter: one entry for the agent or team. */
  function FullPayload(agent: Agent?, team: Team?, kind: Option<string>, description: Option<string>): map<string, Json>
    reads agent
  {
    map[
      "agents" := (if agent != null then JList([JObject(AgentEntry(agent))]) else JNull),
      "teams" := (if team != null then JList([JObject(TeamEntry(team))]) else JNull),
      "type" := OptString(kind),
      "description" := OptString(description)
    ]
  }

  /** `to_dict()`: the payload with every None value dropped. */
  function Payload(agent: Agent?, team: Team?, kind: Option<string>, description: Option<string>): (r: map<string, Json>)
    reads agent
    ensures forall k :: k in r ==> r[k] != JNull
    ensures r.Keys <= {"agents", "teams", "type", "description"}
  {
    var full := FullPayload(agent, team, kind, description);
    map k | k in full && full[k] != JNull :: full[k]
  }

  /** Which entries `to_dict()` keeps: exactly the ones whose value is not
      None, each with the value the unfiltered payload gives it. */
  lemma PayloadEntries(agent: Agent?, team: Team?, kind: Option<string>, description: Option<string>)
    ensures var r := Payload(agent, team, kind, description);
      && ("agents" in r <==> agent != null)
      && ("teams" in r <==> team != null)
      && (agent != null ==> r["agents"] == JList([JObject(AgentEntry(agent))]))
      && (team != null ==> r["teams"] == JList([JObject(TeamEntry(team))]))
      && ("type" in r <==> kind.Some?)
      && (kind.Some? ==> r["type"] == JString(kind.value))
      && ("description" in r <==> description.Some?)
      && (description.Some? ==> r["description"] == JString(description.value))
  {
    var full := FullPayload(agent, team, kind, description);
    assert full.Keys == {"agents", "teams", "type", "description"};
  }

  /** The `agent` and `team` attributes `BaseAPIApp.__init__` sets on an instance. */
  datatype AgentAndTeam = AgentAndTeam(agent: Agent?, team: Team?)

  /** The AttributeError `to_dict()` raises on an instance whose `agent`
      attribute was never set. */
  const NoAgentAttribute := "object has no attribute 'agent'"

  /** The agent `to_dict()` reads, if the attributes exist. */
  function AttrsAgent(attrs: Option<AgentAndTeam>): set<Agent?> {
    if attrs.Some? then {attrs.value.agent} else {}
  }

  /** `to_dict()` as every subclass inherits it. Its first step reads
      `self.agent`, so on an instance whose attributes were never set (None)
      it raises AttributeError; otherwise it yields the filtered payload. */
  function InheritedToDict(attrs: Option<AgentAndTeam>, kind: Option<string>, description: Option<string>)
    : (r: Result<map<string, Json>, string>)
    reads AttrsAgent(attrs)
    ensures r.Failure? <==> attrs == None
    ensures r.Failure? ==> r.error == NoAgentAttribute
    ensures attrs.Some? ==> r.value == Payload(attrs.value.agent, attrs.value.team, kind, description)
  {
    match attrs
    case None => Failure(NoAgentAttribute)
    case Some(AgentAndTeam(agent, team)) => Success(Payload(agent, team, kind, description))
  }

  /** The calls `register_app_on_platform()` makes once `_set_monitoring()`
      has run: none when monitoring is off; otherwise one `create_app` with
      the payload, unless building the payload raised, which the `try`
      swallows before `create_app` is reached. */
  function CreateAppCalls(monitoring: bool, name: Option<string>, appId: Option<string>,
                          config: Result<map<string, Json>, string>): (r: seq<Call>)
    ensures |r| <= 1
    ensures r != [] <==> monitoring && config.Success?
    ensures r != [] ==> r[0] == CreateApp(name, appId, config.value)
  {
    if monitoring && config.Success? then [CreateApp(name, appId, config.value)] else []
  }

  /** The list of agents (or teams) an adapter holding at most one has. */
  function Listed<T(==)>(x: T, present: bool): (r: seq<T>)
    ensures present ==> r == [x]
    ensures !present ==> r == []
  {
    if present then [x] else []
  }

  class BaseApiApp {
    const agent: Agent?
    const team: Team?
    /** The subclass's `type` class attribute. */
    const kind: Option<string>
    const name: Option<string>
    const description: Option<string>
    var appId: Option<string>
    var monitoring: bool

    constructor (agent: Agent?, team: Team?, kind: Option<string>, name: Option<string>,
                 description: Option<string>, appId: Option<string>, monitoring: bool)
      ensures this.agent == agent && this.team == team && this.kind == kind
      ensures this.name == name && this.description == description
      ensures this.appId == appId && this.monitoring == monitoring
    {
      this.agent := agent;
      this.team := team;
      this.kind := kind;
      this.name := name;
      this.description := description;
      this.appId := appId;
      this.monitoring := monitoring;
    }

    /** `set_app_id()`: `uuid` stands for `str(uuid4())`. */
    method SetAppId(uuid: Id) returns (id: string)
      modifies this`appId
      ensures appId == AppIdAfterSet(old(appId), uuid)
      ensures appId == Some(id)
    {
      if appId == None {
        appId := Some(uuid);
      }
      id := appId.value;
    }

    /** `_set_monitoring()`: `monitorEnv` is the value of `AGNO_MONITOR`, None
        when it is unset. */
    method SetMonitoring(monitorEnv: Option<string>)
      modifies this`monitoring
      ensures monitoring == MonitoringAfter(old(monitoring), monitorEnv)
      ensures monitorEnv == None ==> monitoring == old(monitoring)
    {
      if monitorEnv.Some? {
        monitoring := Lower(monitorEnv.value) == "true";
      }
    }

    /** The inherited `to_dict()` on an instance whose constructor set both
        attributes: it always yields the payload. */
    function ToDict(): (r: Result<map<string, Json>, string>)
      reads agent
      ensures r == Success(Payload(agent, team, kind, description))
    {
      InheritedToDict(Some(AgentAndTeam(agent, team)), kind, description)
    }

    /** `register_app_on_platform()`: after `_set_monitoring()`, one
        `create_app` call when monitoring is on and none otherwise. An
        exception from `to_dict()` or `create_app` is caught and logged, so the
        method always returns normally. */
    method RegisterAppOnPlatform(monitorEnv: Option<string>) returns (made: seq<Call>)
      modifies this`monitoring
      ensures monitoring == MonitoringAfter(old(monitoring), monitorEnv)
      ensures made == CreateAppCalls(monitoring, name, appId, ToDict())
      ensures !monitoring ==> made == []
      ensures monitoring ==> made == [CreateApp(name, appId, Payload(agent, team, kind, description))]
    {
      SetMonitoring(monitorEnv);
      if !monitoring {
        return [];
      }
      match ToDict()
      case Failure(_) =>
        made := [];
      case Success(config) =>
        made := [CreateApp(name, appId, config)];
    }
  }

  /** `BaseAPIApp(...)`: exactly one of `agent` and `team` is required. The app
      id is set, then the agent, or the team and its members, are normalised:
      an agent member's `team_id` is cleared. `made` is every call made. */
  method Create(agent: Agent?, team: Team?, kind: Option<string>, monitoring: bool, appId: Option<string>,
                name: Option<string>, description: Option<string>, uuid: Id)
    returns (r: Result<BaseApiApp, string>, made: seq<Call>)
    modifies if agent != null then {agent} else {}, if team != null then {team} else {},
      if team != null then AgentSet(AgentsOf(team.members)) else {}
    ensures agent == null && team == null ==> r == Failure(NeitherGiven) && made == []
    ensures agent != null && team != null ==> r == Failure(BothGiven) && made == []
    ensures r.Success? <==> (agent == null) != (team == null)
    ensures r.Success? ==>
      var app := r.value;
      && fresh(app)
      && app.agent == agent && app.team == team && app.kind == kind
      && app.name == name && app.description == description && app.monitoring == monitoring
      && app.appId == AppIdAfterSet(appId, uuid)
      && ComponentsNormalised(Listed(agent, agent != null), Listed(team, team != null), app.appId.value, ResetTeamId,
                              old(AgentsIds(TouchedAgents(Listed(agent, agent != null), Listed(team, team != null)))),
                              old(TeamsAppIds(TeamSet(Listed(team, team != null)))))
      && made == InitCalls(Listed(agent, agent != null), Listed(team, team != null))
  {
    if agent == null && team == null {
      return Failure(NeitherGiven), [];
    }
    if agent != null && team != null {
      return Failure(BothGiven), [];
    }
    var agents, teams := Listed(agent, agent != null), Listed(team, team != null);
    ghost var agentsBefore := AgentsIds(TouchedAgents(agents, teams));
    ghost var teamsBefore := TeamsAppIds(TeamSet(teams));
    var app := new BaseApiApp(agent, team, kind, name, description, appId, monitoring);
    var id := app.SetAppId(uuid);
    assert AgentsIds(TouchedAgents(agents, teams)) == agentsBefore;
    assert TeamsAppIds(TeamSet(teams)) == teamsBefore;
    assert MemberAgents(teams) == if team != null then AgentsOf(team.members) else [] by {
      if team != null {
        assert teams[..0] == [];
      }
    }
    made := NormaliseComponents(agents, teams, id, ResetTeamId);
    r := Success(app);
  }
}
