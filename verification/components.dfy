/** The agent-library objects the app adapters receive (agents, teams, workflows),
    the JSON-like values their platform dictionaries are made of, and the calls
    the adapters make into code that is not part of this model. */
module Components {
  import opened Wrappers

  /** An identifier produced by `uuid4()` or `generate_id`: never the empty string. */
  type Id = s: string | |s| > 0 witness "0"

  /** Python truthiness of an `Optional[str]`: `not s` holds for None and for "". */
  predicate Falsy(s: Option<string>) {
    s == None || s == Some("")
  }

  /** `current or default` on an `Optional[str]`. */
  function OrElse(current: Option<string>, default: Option<string>): Option<string> {
    if Falsy(current) then default else current
  }

  /** The assignment `if not x.app_id: x.app_id = app_id`, as a value. */
  function FillIfFalsy(current: Option<string>, appId: string): Option<string> {
    if Falsy(current) then Some(appId) else current
  }

  /** Python `not xs` on an `Optional[List[...]]`: None or the empty list. */
  predicate Absent<T>(xs: Option<seq<T>>) {
    xs == None || xs == Some([])
  }

  /** `xs or []`, and equally what `if xs: for x in xs:` visits. */
  function OrEmpty<T>(xs: Option<seq<T>>): (r: seq<T>)
    ensures r == [] <==> Absent(xs)
    ensures xs.Some? ==> r == xs.value
  {
    if xs.Some? then xs.value else []
  }

  /** The values a Python configuration dictionary holds. */
  datatype Json =
    | JNull
    | JString(s: string)
    | JList(items: seq<Json>)
    | JObject(fields: map<string, Json>)

  /** `None` becomes JSON null, a string stays a string. */
  function OptString(s: Option<string>): Json {
    match s
    case None => JNull
    case Some(v) => JString(v)
  }

  /** An agent: its identity and configuration are fixed, its `app_id` and
      `team_id` are the fields the adapters rewrite. */
  class Agent {
    const agentId: Option<string>
    /** Whether `agent.knowledge` is set (truthy). */
    const hasKnowledge: bool
    /** What `agent.get_agent_config_dict()` returns. */
    const configDict: map<string, Json>
    var appId: Option<string>
    var teamId: Option<string>

    constructor (agentId: Option<string>, hasKnowledge: bool, configDict: map<string, Json>,
                 appId: Option<string>, teamId: Option<string>)
      ensures this.agentId == agentId && this.hasKnowledge == hasKnowledge
      ensures this.configDict == configDict
      ensures this.appId == appId && this.teamId == teamId
    {
      this.agentId := agentId;
      this.hasKnowledge := hasKnowledge;
      this.configDict := configDict;
      this.appId := appId;
      this.teamId := teamId;
    }
  }

  /** A team member is an agent or a nested team; members of any other type are
      skipped by every adapter and are not represented. */
  datatype Member = AgentMember(agent: Agent) | TeamMember(team: Team)

  class Team {
    const teamId: Option<string>
    const members: seq<Member>
    /** What `team.to_platform_dict()` returns. */
    const platformDict: map<string, Json>
    var appId: Option<string>

    constructor (teamId: Option<string>, members: seq<Member>, platformDict: map<string, Json>,
                 appId: Option<string>)
      ensures this.teamId == teamId && this.members == members
      ensures this.platformDict == platformDict && this.appId == appId
    {
      this.teamId := teamId;
      this.members := members;
      this.platformDict := platformDict;
      this.appId := appId;
    }
  }

  class Workflow {
    const name: Option<string>
    var appId: Option<string>
    var workflowId: Option<string>

    constructor (name: Option<string>, appId: Option<string>, workflowId: Option<string>)
      ensures this.name == name && this.appId == appId && this.workflowId == workflowId
    {
      this.name := name;
      this.appId := appId;
      this.workflowId := workflowId;
    }
  }

  /** `{**agent.get_agent_config_dict(), "agent_id": ..., "team_id": ...}`: the
      configuration dictionary with the two identifiers written over it. */
  function AgentEntry(a: Agent): (r: map<string, Json>)
    reads a
    ensures r.Keys == a.configDict.Keys + {"agent_id", "team_id"}
    ensures r["agent_id"] == OptString(a.agentId) && r["team_id"] == OptString(a.teamId)
    ensures forall k :: k in a.configDict && k != "agent_id" && k != "team_id" ==> r[k] == a.configDict[k]
  {
    a.configDict["agent_id" := OptString(a.agentId)]["team_id" := OptString(a.teamId)]
  }

  /** `{**team.to_platform_dict(), "team_id": team.team_id}`. */
  function TeamEntry(t: Team): (r: map<string, Json>)
    ensures r.Keys == t.platformDict.Keys + {"team_id"}
    ensures r["team_id"] == OptString(t.teamId)
    ensures forall k :: k in t.platformDict && k != "team_id" ==> r[k] == t.platformDict[k]
  {
    t.platformDict["team_id" := OptString(t.teamId)]
  }

  /** A call into code outside this model, recorded in the order it is made. */
  datatype Call =
    | InitializeAgent(agent: Agent)
    | InitializeTeam(team: Team)
    /** `generate_id(workflow.name)` on behalf of this workflow. */
    | GenerateId(workflow: Workflow)
    | RegisterAgent(agent: Agent)
    | RegisterTeam(team: Team)
    | RegisterWorkflow(workflow: Workflow)
    /** `create_app(app=AppCreate(name=..., app_id=..., config=...))`. */
    | CreateApp(name: Option<string>, appId: Option<string>, config: map<string, Json>)
    /** `uvicorn.run(app=..., host=..., port=..., reload=...)`. */
    | RunServer(host: string, port: int, reload: bool)

  /** Whether this call raises, given the components whose registration raises. */
  predicate Raises(c: Call, failing: set<object>) {
    match c
    case RegisterAgent(a) => a in failing
    case RegisterTeam(t) => t in failing
    case RegisterWorkflow(w) => w in failing
    case _ => false
  }
}
