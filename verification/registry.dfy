/** Component-registry normalisation shared by the app adapters: filling in
    `app_id`, `team_id` and `workflow_id` on the components an app is given,
    and the calls into the agent library that this makes, in order. */
module Registry {
  import opened Wrappers
  import opened Components

  /** What an adapter does to the `team_id` of a team's agent members: the
      Django adapter copies the team's own id, the FastAPI and base adapters
      clear it. */
  datatype MemberPolicy = AssignTeamId | ResetTeamId

  function AgentSet(agents: seq<Agent>): set<Agent> { set a | a in agents }
  function TeamSet(teams: seq<Team>): set<Team> { set t | t in teams }
  function WorkflowSet(workflows: seq<Workflow>): set<Workflow> { set w | w in workflows }

  /** The agent members of a team, in member order. */
  function AgentsOf(members: seq<Member>): seq<Agent> {
    if members == [] then []
    else
      AgentsOf(members[..|members| - 1]) +
      match members[|members| - 1]
      case AgentMember(a) => [a]
      case TeamMember(_) => []
  }

  /** The nested-team members of a team, in member order. */
  function TeamsOf(members: seq<Member>): seq<Team> {
    if members == [] then []
    else
      TeamsOf(members[..|members| - 1]) +
      match members[|members| - 1]
      case AgentMember(_) => []
      case TeamMember(t) => [t]
  }

  /** AgentsOf picks out exactly the agent members. */
  lemma {:induction false} AgentsOfMembership(members: seq<Member>, a: Agent)
    ensures a in AgentsOf(members) <==> AgentMember(a) in members
  {
    if members != [] {
      var init := members[..|members| - 1];
      AgentsOfMembership(init, a);
      assert members == init + [members[|members| - 1]];
    }
  }

  /** The agent members of all the teams, team by team. */
  function MemberAgents(teams: seq<Team>): seq<Agent> {
    if teams == [] then []
    else MemberAgents(teams[..|teams| - 1]) + AgentsOf(teams[|teams| - 1].members)
  }

  /** The nested-team members of all the teams, team by team. */
  function MemberTeams(teams: seq<Team>): seq<Team> {
    if teams == [] then []
    else MemberTeams(teams[..|teams| - 1]) + TeamsOf(teams[|teams| - 1].members)
  }

  /** The `team_id` one team gives its agent members under a policy. */
  function PolicyTeamId(policy: MemberPolicy, team: Team): Option<string> {
    match policy
    case AssignTeamId => team.teamId
    case ResetTeamId => None
  }

  /** The `team_id` an agent ends up with after the teams, in order, have each
      set the `team_id` of their agent members: the last team the agent belongs
      to decides, and an agent in no team keeps `current`. */
  function MemberTeamId(policy: MemberPolicy, teams: seq<Team>, a: Agent, current: Option<string>): Option<string> {
    if teams == [] then current
    else if AgentMember(a) in teams[|teams| - 1].members then PolicyTeamId(policy, teams[|teams| - 1])
    else MemberTeamId(policy, teams[..|teams| - 1], a, current)
  }

  /** An agent in no team keeps its `team_id`. */
  lemma {:induction false} MemberTeamIdOutsider(policy: MemberPolicy, teams: seq<Team>, a: Agent, current: Option<string>)
    requires a !in MemberAgents(teams)
    ensures MemberTeamId(policy, teams, a, current) == current
  {
    if teams != [] {
      AgentsOfMembership(teams[|teams| - 1].members, a);
      MemberTeamIdOutsider(policy, teams[..|teams| - 1], a, current);
    }
  }

  /** An agent whose last team is `teams[k]` gets the `team_id` that team gives. */
  lemma {:induction false} MemberTeamIdLastOwner(policy: MemberPolicy, teams: seq<Team>, a: Agent, current: Option<string>, k: nat)
    requires k < |teams| && AgentMember(a) in teams[k].members
    requires forall j :: k < j < |teams| ==> AgentMember(a) !in teams[j].members
    ensures MemberTeamId(policy, teams, a, current) == PolicyTeamId(policy, teams[k])
  {
    if k < |teams| - 1 {
      var init := teams[..|teams| - 1];
      assert forall j :: 0 <= j < |init| ==> init[j] == teams[j];
      MemberTeamIdLastOwner(policy, init, a, current, k);
    }
  }

  /** Under the FastAPI/base policy every agent member ends with no `team_id`. */
  lemma {:induction false} ResetClearsMembers(teams: seq<Team>, a: Agent, current: Option<string>)
    requires a in MemberAgents(teams)
    ensures MemberTeamId(ResetTeamId, teams, a, current) == None
  {
    var last := teams[|teams| - 1];
    if AgentMember(a) !in last.members {
      AgentsOfMembership(last.members, a);
      ResetClearsMembers(teams[..|teams| - 1], a, current);
    }
  }

  // ---------------------------------------------------------------------------
  // The calls normalisation makes

  /** `initialize_agent()` on each agent, in list order. */
  function AgentInitCalls(agents: seq<Agent>): seq<Call> {
    if agents == [] then []
    else AgentInitCalls(agents[..|agents| - 1]) + [InitializeAgent(agents[|agents| - 1])]
  }

  /** The calls for a team's members: `initialize_agent()` for an agent member,
      `initialize_team()` for a nested team. */
  function MemberInitCalls(members: seq<Member>): seq<Call> {
    if members == [] then []
    else
      MemberInitCalls(members[..|members| - 1]) +
      match members[|members| - 1]
      case AgentMember(a) => [InitializeAgent(a)]
      case TeamMember(t) => [InitializeTeam(t)]
  }

  /** For each team, `initialize_team()` and then its members' calls. */
  function TeamInitCalls(teams: seq<Team>): seq<Call> {
    if teams == [] then []
    else
      var t := teams[|teams| - 1];
      TeamInitCalls(teams[..|teams| - 1]) + [InitializeTeam(t)] + MemberInitCalls(t.members)
  }

  function InitCalls(agents: seq<Agent>, teams: seq<Team>): seq<Call> {
    AgentInitCalls(agents) + TeamInitCalls(teams)
  }

  /** The workflows with no usable `workflow_id`. */
  function LackingIds(workflows: seq<Workflow>): set<Workflow>
    reads WorkflowSet(workflows)
  {
    set w | w in workflows && Falsy(w.workflowId)
  }

  /** `generate_id` calls: one at the first occurrence of each workflow in
      `lacking`; later occurrences find the id already set. */
  function GenerateCalls(workflows: seq<Workflow>, lacking: set<Workflow>): seq<Call> {
    if workflows == [] then []
    else
      var init := workflows[..|workflows| - 1];
      var w := workflows[|workflows| - 1];
      GenerateCalls(init, lacking) + if w in lacking && w !in init then [GenerateId(w)] else []
  }

  // ---------------------------------------------------------------------------
  // How often each component is initialised, and how often an id is generated

  lemma {:induction false} AgentInitCallsCount(agents: seq<Agent>, a: Agent, t: Team)
    ensures multiset(AgentInitCalls(agents))[InitializeAgent(a)] == multiset(agents)[a]
    ensures multiset(AgentInitCalls(agents))[InitializeTeam(t)] == 0
  {
    if agents != [] {
      var init := agents[..|agents| - 1];
      AgentInitCallsCount(init, a, t);
      assert agents == init + [agents[|agents| - 1]];
    }
  }

  lemma {:induction false} MemberInitCallsCount(members: seq<Member>, a: Agent, t: Team)
    ensures multiset(MemberInitCalls(members))[InitializeAgent(a)] == multiset(AgentsOf(members))[a]
    ensures multiset(MemberInitCalls(members))[InitializeTeam(t)] == multiset(TeamsOf(members))[t]
  {
    if members != [] {
      var init := members[..|members| - 1];
      MemberInitCallsCount(init, a, t);
      match members[|members| - 1]
      case AgentMember(b) =>
        assert MemberInitCalls(members) == MemberInitCalls(init) + [InitializeAgent(b)];
        assert AgentsOf(members) == AgentsOf(init) + [b];
        assert TeamsOf(members) == TeamsOf(init);
      case TeamMember(u) =>
        assert MemberInitCalls(members) == MemberInitCalls(init) + [InitializeTeam(u)];
        assert AgentsOf(members) == AgentsOf(init);
        assert TeamsOf(members) == TeamsOf(init) + [u];
    }
  }

  lemma {:induction false} TeamInitCallsCount(teams: seq<Team>, a: Agent, t: Team)
    ensures multiset(TeamInitCalls(teams))[InitializeAgent(a)] == multiset(MemberAgents(teams))[a]
    ensures multiset(TeamInitCalls(teams))[InitializeTeam(t)] == multiset(teams)[t] + multiset(MemberTeams(teams))[t]
  {
    if teams != [] {
      var init := teams[..|teams| - 1];
      var last := teams[|teams| - 1];
      assert multiset(teams) == multiset(init) + multiset([last]) by {
        assert teams == init + [last];
      }
      TeamInitCallsCount(init, a, t);
      MemberInitCallsCount(last.members, a, t);
      assert multiset(TeamInitCalls(teams)) ==
        multiset(TeamInitCalls(init)) + multiset([InitializeTeam(last)]) + multiset(MemberInitCalls(last.members));
      assert multiset(MemberAgents(teams)) == multiset(MemberAgents(init)) + multiset(AgentsOf(last.members));
      assert multiset(MemberTeams(teams)) == multiset(MemberTeams(init)) + multiset(TeamsOf(last.members));
    }
  }

  /** Normalisation calls `initialize_agent()` once per appearance of an agent
      (each occurrence in the agent list and each team it is an agent member of)
      and `initialize_team()` once per appearance of a team (in the team list or
      as a nested member). */
  lemma {:induction false} InitCallsCount(agents: seq<Agent>, teams: seq<Team>, a: Agent, t: Team)
    ensures multiset(InitCalls(agents, teams))[InitializeAgent(a)] == multiset(agents)[a] + multiset(MemberAgents(teams))[a]
    ensures multiset(InitCalls(agents, teams))[InitializeTeam(t)] == multiset(teams)[t] + multiset(MemberTeams(teams))[t]
  {
    AgentInitCallsCount(agents, a, t);
    TeamInitCallsCount(teams, a, t);
  }

  /** `generate_id` is called exactly once for each listed workflow that lacked
      a `workflow_id`, and never for one that had it or is not listed. */
  lemma {:induction false} GenerateCallsOnce(workflows: seq<Workflow>, lacking: set<Workflow>, w: Workflow)
    ensures multiset(GenerateCalls(workflows, lacking))[GenerateId(w)] == if w in workflows && w in lacking then 1 else 0
  {
    if workflows != [] {
      var init := workflows[..|workflows| - 1];
      GenerateCallsOnce(init, lacking, w);
      assert workflows == init + [workflows[|workflows| - 1]];
    }
  }

  // ---------------------------------------------------------------------------
  // Platform registration: `register_agent()`, `register_team()`,
  // `register_workflow()` in list order, stopping at the first that raises

  function RegisterAgentCalls(agents: seq<Agent>): (r: seq<Call>)
    ensures |r| == |agents|
    ensures forall i :: 0 <= i < |agents| ==> r[i] == RegisterAgent(agents[i])
  {
    if agents == [] then []
    else RegisterAgentCalls(agents[..|agents| - 1]) + [RegisterAgent(agents[|agents| - 1])]
  }

  function RegisterTeamCalls(teams: seq<Team>): (r: seq<Call>)
    ensures |r| == |teams|
    ensures forall i :: 0 <= i < |teams| ==> r[i] == RegisterTeam(teams[i])
  {
    if teams == [] then []
    else RegisterTeamCalls(teams[..|teams| - 1]) + [RegisterTeam(teams[|teams| - 1])]
  }

  function RegisterWorkflowCalls(workflows: seq<Workflow>): (r: seq<Call>)
    ensures |r| == |workflows|
    ensures forall i :: 0 <= i < |workflows| ==> r[i] == RegisterWorkflow(workflows[i])
  {
    if workflows == [] then []
    else RegisterWorkflowCalls(workflows[..|workflows| - 1]) + [RegisterWorkflow(workflows[|workflows| - 1])]
  }

  /** Every agent is registered, then every team, then every workflow, each
      once per occurrence and in list order. */
  function RegistrationCalls(agents: seq<Agent>, teams: seq<Team>, workflows: seq<Workflow>): (r: seq<Call>)
    ensures |r| == |agents| + |teams| + |workflows|
    ensures forall i :: 0 <= i < |agents| ==> r[i] == RegisterAgent(agents[i])
    ensures forall i :: 0 <= i < |teams| ==> r[|agents| + i] == RegisterTeam(teams[i])
    ensures forall i :: 0 <= i < |workflows| ==> r[|agents| + |teams| + i] == RegisterWorkflow(workflows[i])
  {
    RegisterAgentCalls(agents) + RegisterTeamCalls(teams) + RegisterWorkflowCalls(workflows)
  }

  /** Registration makes no call other than `register_*`. */
  lemma RegistrationsOnly(agents: seq<Agent>, teams: seq<Team>, workflows: seq<Workflow>)
    ensures var r := RegistrationCalls(agents, teams, workflows);
      forall i :: 0 <= i < |r| ==> r[i].RegisterAgent? || r[i].RegisterTeam? || r[i].RegisterWorkflow?
  {
  }

  /** Whether attempting `calls` in order meets one that raises. */
  predicate AnyRaises(calls: seq<Call>, failing: set<object>) {
    calls != [] && (Raises(calls[0], failing) || AnyRaises(calls[1..], failing))
  }

  /** Some call raises iff there is a position whose call raises. */
  lemma {:induction false} AnyRaisesAt(calls: seq<Call>, failing: set<object>)
    ensures AnyRaises(calls, failing) <==> exists i :: 0 <= i < |calls| && Raises(calls[i], failing)
  {
    if calls != [] {
      AnyRaisesAt(calls[1..], failing);
      if exists i :: 0 <= i < |calls| && Raises(calls[i], failing) {
        var i :| 0 <= i < |calls| && Raises(calls[i], failing);
        if i > 0 {
          assert calls[1..][i - 1] == calls[i];
        }
      }
      if exists i :: 0 <= i < |calls[1..]| && Raises(calls[1..][i], failing) {
        var i :| 0 <= i < |calls[1..]| && Raises(calls[1..][i], failing);
        assert calls[i + 1] == calls[1..][i];
      }
    }
  }

  /** The calls actually made when `calls` are attempted in order and the first
      that raises ends the sequence (an unguarded loop). */
  function UntilFailure(calls: seq<Call>, failing: set<object>): seq<Call> {
    if calls == [] then []
    else if Raises(calls[0], failing) then [calls[0]]
    else [calls[0]] + UntilFailure(calls[1..], failing)
  }

  /** The calls made are a prefix of those attempted; all but the last made
      went through; the last raised exactly when some attempted call raises,
      and when none does, every call was made. */
  lemma {:induction false} UntilFailureShape(calls: seq<Call>, failing: set<object>)
    ensures var r := UntilFailure(calls, failing);
      && r <= calls
      && (forall i :: 0 <= i < |r| - 1 ==> !Raises(r[i], failing))
      && (AnyRaises(calls, failing) <==> r != [] && Raises(r[|r| - 1], failing))
      && (!AnyRaises(calls, failing) ==> r == calls)
  {
    if calls != [] {
      if !Raises(calls[0], failing) {
        UntilFailureShape(calls[1..], failing);
        var rest := UntilFailure(calls[1..], failing);
        assert UntilFailure(calls, failing) == [calls[0]] + rest;
        assert calls == [calls[0]] + calls[1..];
      }
    }
  }

  /** When the call at position `k` is the first to raise, the calls made are
      exactly those up to and including it. */
  lemma {:induction false} StopsAt(calls: seq<Call>, failing: set<object>, k: nat)
    requires k < |calls| && Raises(calls[k], failing) && !AnyRaises(calls[..k], failing)
    ensures UntilFailure(calls, failing) == calls[..k + 1]
  {
    if k == 0 {
      assert calls[..1] == [calls[0]];
    } else {
      var before := calls[..k];
      assert before[0] == calls[0] && before[1..] == calls[1..][..k - 1];
      StopsAt(calls[1..], failing, k - 1);
      assert calls[..k + 1] == [calls[0]] + calls[1..][..k];
    }
  }

  /** Some call of two batches raises iff some call of either does. */
  lemma {:induction false} AnyRaisesConcat(xs: seq<Call>, ys: seq<Call>, failing: set<object>)
    ensures AnyRaises(xs + ys, failing) <==> AnyRaises(xs, failing) || AnyRaises(ys, failing)
  {
    if xs == [] {
      assert xs + ys == ys;
    } else {
      assert (xs + ys)[0] == xs[0] && (xs + ys)[1..] == xs[1..] + ys;
      AnyRaisesConcat(xs[1..], ys, failing);
    }
  }

  /** Attempting two batches in turn: the second is reached only when no call
      of the first raises. */
  lemma {:induction false} UntilFailureConcat(xs: seq<Call>, ys: seq<Call>, failing: set<object>)
    ensures UntilFailure(xs + ys, failing) ==
      if AnyRaises(xs, failing) then UntilFailure(xs, failing) else xs + UntilFailure(ys, failing)
  {
    if xs == [] {
      assert xs + ys == ys;
    } else {
      var zs := xs + ys;
      assert zs[0] == xs[0] && zs[1..] == xs[1..] + ys;
      if Raises(xs[0], failing) {
        assert UntilFailure(zs, failing) == [xs[0]] == UntilFailure(xs, failing);
      } else {
        UntilFailureConcat(xs[1..], ys, failing);
        assert UntilFailure(zs, failing) == [xs[0]] + UntilFailure(xs[1..] + ys, failing);
        assert UntilFailure(xs, failing) == [xs[0]] + UntilFailure(xs[1..], failing);
        assert [xs[0]] + xs[1..] == xs;
      }
    }
  }

  /** `for agent in agents: agent.register_agent()`, until one raises. */
  method RegisterAgents(agents: seq<Agent>, failing: set<object>) returns (made: seq<Call>, raised: bool)
    ensures made == UntilFailure(RegisterAgentCalls(agents), failing)
    ensures raised <==> AnyRaises(RegisterAgentCalls(agents), failing)
  {
    ghost var all := RegisterAgentCalls(agents);
    UntilFailureShape(all, failing);
    made := [];
    for i := 0 to |agents|
      invariant made == all[..i] && !AnyRaises(made, failing)
    {
      var c := RegisterAgent(agents[i]);
      assert all[..i + 1] == all[..i] + [c];
      if agents[i] in failing {
        StopsAt(all, failing, i);
        return made + [c], true;
      }
      AnyRaisesConcat(made, [c], failing);
      made := made + [c];
    }
    assert all[..|agents|] == all;
    raised := false;
  }

  /** `for team in teams: team.register_team()`, until one raises. */
  method RegisterTeams(teams: seq<Team>, failing: set<object>) returns (made: seq<Call>, raised: bool)
    ensures made == UntilFailure(RegisterTeamCalls(teams), failing)
    ensures raised <==> AnyRaises(RegisterTeamCalls(teams), failing)
  {
    ghost var all := RegisterTeamCalls(teams);
    UntilFailureShape(all, failing);
    made := [];
    for i := 0 to |teams|
      invariant made == all[..i] && !AnyRaises(made, failing)
    {
      var c := RegisterTeam(teams[i]);
      assert all[..i + 1] == all[..i] + [c];
      if teams[i] in failing {
        StopsAt(all, failing, i);
        return made + [c], true;
      }
      AnyRaisesConcat(made, [c], failing);
      made := made + [c];
    }
    assert all[..|teams|] == all;
    raised := false;
  }

  /** `for workflow in workflows: workflow.register_workflow()`, until one raises. */
  method RegisterWorkflows(workflows: seq<Workflow>, failing: set<object>) returns (made: seq<Call>, raised: bool)
    ensures made == UntilFailure(RegisterWorkflowCalls(workflows), failing)
    ensures raised <==> AnyRaises(RegisterWorkflowCalls(workflows), failing)
  {
    ghost var all := RegisterWorkflowCalls(workflows);
    UntilFailureShape(all, failing);
    made := [];
    for i := 0 to |workflows|
      invariant made == all[..i] && !AnyRaises(made, failing)
    {
      var c := RegisterWorkflow(workflows[i]);
      assert all[..i + 1] == all[..i] + [c];
      if workflows[i] in failing {
        StopsAt(all, failing, i);
        return made + [c], true;
      }
      AnyRaisesConcat(made, [c], failing);
      made := made + [c];
    }
    assert all[..|workflows|] == all;
    raised := false;
  }

  /** However early registration stops, it has made only `register_*` calls. */
  lemma AttemptedRegistrationsOnly(agents: seq<Agent>, teams: seq<Team>, workflows: seq<Workflow>,
                                   failing: set<object>, c: Call)
    requires !c.RegisterAgent? && !c.RegisterTeam? && !c.RegisterWorkflow?
    ensures c !in UntilFailure(RegistrationCalls(agents, teams, workflows), failing)
  {
    var all := RegistrationCalls(agents, teams, workflows);
    var made := UntilFailure(all, failing);
    UntilFailureShape(all, failing);
    RegistrationsOnly(agents, teams, workflows);
    forall i | 0 <= i < |made|
      ensures made[i] != c
    {
      assert made[i] == all[i];
    }
  }

  /** The registration loops shared by every adapter: agents, then teams, then
      workflows, in order; the first exception ends them all. `raised` tells
      whether one did. */
  method RegisterAll(agents: seq<Agent>, teams: seq<Team>, workflows: seq<Workflow>, failing: set<object>)
    returns (made: seq<Call>, raised: bool)
    ensures made == UntilFailure(RegistrationCalls(agents, teams, workflows), failing)
    ensures raised <==> AnyRaises(RegistrationCalls(agents, teams, workflows), failing)
  {
    var xs, ys, zs := RegisterAgentCalls(agents), RegisterTeamCalls(teams), RegisterWorkflowCalls(workflows);
    UntilFailureConcat(xs + ys, zs, failing);
    UntilFailureConcat(xs, ys, failing);
    AnyRaisesConcat(xs + ys, zs, failing);
    AnyRaisesConcat(xs, ys, failing);
    UntilFailureShape(xs, failing);
    UntilFailureShape(ys, failing);
    made, raised := RegisterAgents(agents, failing);
    if raised {
      return;
    }
    var more;
    more, raised := RegisterTeams(teams, failing);
    made := made + more;
    if raised {
      return;
    }
    more, raised := RegisterWorkflows(workflows, failing);
    made := made + more;
  }

  // ---------------------------------------------------------------------------
  // Normalisation itself

  /** The two fields of an agent that normalisation rewrites, at one moment. */
  datatype AgentIds = AgentIds(appId: Option<string>, teamId: Option<string>)

  /** The two fields of a workflow that normalisation rewrites, at one moment. */
  datatype WorkflowIds = WorkflowIds(appId: Option<string>, workflowId: Option<string>)

  /** The agents normalisation touches: the listed ones and every agent member. */
  function TouchedAgents(agents: seq<Agent>, teams: seq<Team>): set<Agent> {
    AgentSet(agents) + AgentSet(MemberAgents(teams))
  }

  /** The rewritable fields of some agents as they stand now. */
  function AgentsIds(agents: set<Agent>): map<Agent, AgentIds>
    reads agents
  {
    map a | a in agents :: AgentIds(a.appId, a.teamId)
  }

  /** The `app_id` of some teams as it stands now. */
  function TeamsAppIds(teams: set<Team>): map<Team, Option<string>>
    reads teams
  {
    map t | t in teams :: t.appId
  }

  /** The rewritable fields of some workflows as they stand now. */
  function WorkflowsIds(workflows: set<Workflow>): map<Workflow, WorkflowIds>
    reads workflows
  {
    map w | w in workflows :: WorkflowIds(w.appId, w.workflowId)
  }

  /** The state the components are left in, given the fields they had before
      (`agentsBefore`, `teamsBefore`): every listed agent, agent member and team
      has its `app_id` filled only if it was falsy, and each agent's `team_id`
      is decided by the last team it is an agent member of. */
  predicate ComponentsNormalised(agents: seq<Agent>, teams: seq<Team>, appId: string, policy: MemberPolicy,
                                 agentsBefore: map<Agent, AgentIds>, teamsBefore: map<Team, Option<string>>)
    reads TouchedAgents(agents, teams), TeamSet(teams)
  {
    && (forall a :: a in TouchedAgents(agents, teams) && a in agentsBefore ==>
          && a.appId == FillIfFalsy(agentsBefore[a].appId, appId)
          && a.teamId == MemberTeamId(policy, teams, a, agentsBefore[a].teamId))
    && (forall t :: t in teams && t in teamsBefore ==> t.appId == FillIfFalsy(teamsBefore[t], appId))
  }

  /** Every listed workflow has its `app_id` filled if it was falsy and, if its
      `workflow_id` was falsy, the id `generate_id` gives for its name. */
  predicate WorkflowsNormalised(workflows: seq<Workflow>, appId: string, generateId: Option<string> -> Id,
                                before: map<Workflow, WorkflowIds>)
    reads WorkflowSet(workflows)
  {
    forall w :: w in workflows && w in before ==>
      && w.appId == FillIfFalsy(before[w].appId, appId)
      && w.workflowId == if Falsy(before[w].workflowId) then Some(generateId(w.name)) else before[w].workflowId
  }

  /** `for agent in agents: fill app_id; agent.initialize_agent()`. */
  method FillAgents(agents: seq<Agent>, appId: string) returns (made: seq<Call>)
    modifies AgentSet(agents)`appId
    ensures forall a :: a in agents ==> a.appId == FillIfFalsy(old(a.appId), appId)
    ensures made == AgentInitCalls(agents)
  {
    made := [];
    for i := 0 to |agents|
      invariant forall a :: a in agents ==> a.appId == if a in agents[..i] then FillIfFalsy(old(a.appId), appId) else old(a.appId)
      invariant made == AgentInitCalls(agents[..i])
    {
      var a := agents[i];
      if Falsy(a.appId) {
        a.appId := Some(appId);
      }
      made := made + [InitializeAgent(a)];
      assert agents[..i + 1] == agents[..i] + [a];
    }
    assert agents[..|agents|] == agents;
  }

  /** The agents among some members, as a set. */
  function MemberAgentSet(members: seq<Member>): set<Agent> {
    set m | m in members && m.AgentMember? :: m.agent
  }

  lemma MemberAgentSetMembership(members: seq<Member>)
    ensures forall a :: a in MemberAgentSet(members) <==> AgentMember(a) in members
  {
    forall a | AgentMember(a) in members
      ensures a in MemberAgentSet(members)
    {
      var m := AgentMember(a);
      assert m in members && m.AgentMember? && m.agent == a;
    }
  }

  /** One member of a team: an agent member gets its `app_id` filled and its
      `team_id` set to `teamId`, then `initialize_agent()`; a nested team only
      `initialize_team()`. */
  method FillMember(m: Member, appId: string, teamId: Option<string>) returns (c: Call)
    modifies MemberAgentSet([m])`appId, MemberAgentSet([m])`teamId
    ensures m.AgentMember? ==>
      m.agent.appId == FillIfFalsy(old(m.agent.appId), appId) && m.agent.teamId == teamId
    ensures [c] == MemberInitCalls([m])
  {
    assert [m][..0] == [];
    match m
    case AgentMember(a) =>
      if Falsy(a.appId) {
        a.appId := Some(appId);
      }
      a.teamId := teamId;
      c := InitializeAgent(a);
    case TeamMember(t) =>
      c := InitializeTeam(t);
  }

  /** `for member in team.members: ...`, each member as `FillMember` does it. */
  method FillMembers(members: seq<Member>, appId: string, teamId: Option<string>) returns (made: seq<Call>)
    modifies MemberAgentSet(members)`appId, MemberAgentSet(members)`teamId
    ensures forall a :: AgentMember(a) in members && old(allocated(a)) ==>
      a.appId == FillIfFalsy(old(a.appId), appId) && a.teamId == teamId
    ensures made == MemberInitCalls(members)
  {
    made := [];
    for j := 0 to |members|
      invariant forall a :: AgentMember(a) in members && old(allocated(a)) ==>
        a.appId == if AgentMember(a) in members[..j] then FillIfFalsy(old(a.appId), appId) else old(a.appId)
      invariant forall a :: AgentMember(a) in members[..j] && old(allocated(a)) ==> a.teamId == teamId
      invariant made == MemberInitCalls(members[..j])
    {
      var m := members[j];
      assert members[..j + 1] == members[..j] + [m];
      assert MemberInitCalls(members[..j + 1]) == MemberInitCalls(members[..j]) + MemberInitCalls([m]) by {
        assert members[..j + 1][..j] == members[..j];
        assert [m][..0] == [];
      }
      var c := FillMember(m, appId, teamId);
      made := made + [c];
    }
    assert members[..|members|] == members;
  }

  /** One team: fill its `app_id`, `initialize_team()`, then each member, with
      the `team_id` the policy gives. */
  method FillTeam(team: Team, appId: string, policy: MemberPolicy) returns (made: seq<Call>)
    modifies team`appId, MemberAgentSet(team.members)`appId, MemberAgentSet(team.members)`teamId
    ensures team.appId == FillIfFalsy(old(team.appId), appId)
    ensures forall a :: AgentMember(a) in team.members && old(allocated(a)) ==>
      a.appId == FillIfFalsy(old(a.appId), appId) && a.teamId == PolicyTeamId(policy, team)
    ensures made == [InitializeTeam(team)] + MemberInitCalls(team.members)
  {
    if Falsy(team.appId) {
      team.appId := Some(appId);
    }
    var forMembers := FillMembers(team.members, appId, PolicyTeamId(policy, team));
    made := [InitializeTeam(team)] + forMembers;
  }

  /** The agent members of one listed team are among all the agent members. */
  lemma {:induction false} MemberAgentsCover(teams: seq<Team>, i: nat)
    requires i < |teams|
    ensures MemberAgentSet(teams[i].members) <= AgentSet(MemberAgents(teams))
  {
    if i < |teams| - 1 {
      MemberAgentsCover(teams[..|teams| - 1], i);
    } else {
      forall a | a in MemberAgentSet(teams[i].members)
        ensures a in AgentsOf(teams[i].members)
      {
        AgentsOfMembership(teams[i].members, a);
      }
    }
  }

  /** Taking one more team adds its own calls at the end. */
  lemma TeamInitCallsStep(teams: seq<Team>, i: nat)
    requires i < |teams|
    ensures TeamInitCalls(teams[..i + 1]) ==
      TeamInitCalls(teams[..i]) + ([InitializeTeam(teams[i])] + MemberInitCalls(teams[i].members))
  {
    var upTo := teams[..i + 1];
    assert upTo[..|upTo| - 1] == teams[..i] && upTo[|upTo| - 1] == teams[i];
  }

  /** Taking one more workflow adds its `generate_id` call, if any. */
  lemma GenerateCallsStep(workflows: seq<Workflow>, i: nat, lacking: set<Workflow>)
    requires i < |workflows|
    ensures GenerateCalls(workflows[..i + 1], lacking) ==
      GenerateCalls(workflows[..i], lacking) +
      if workflows[i] in lacking && workflows[i] !in workflows[..i] then [GenerateId(workflows[i])] else []
  {
    assert workflows[..i + 1][..i] == workflows[..i];
  }

  /** One more element of a prefix is the element at its end. */
  lemma PrefixStep<T>(s: seq<T>, i: nat)
    requires i < |s|
    ensures forall x :: x in s[..i + 1] <==> x in s[..i] || x == s[i]
  {
    assert s[..i + 1] == s[..i] + [s[i]];
  }

  /** Taking one more team: its agent members take the `team_id` it gives,
      every other agent keeps what the earlier teams decided. */
  lemma MemberTeamIdStep(policy: MemberPolicy, teams: seq<Team>, i: nat)
    requires i < |teams|
    ensures forall a, current ::
      MemberTeamId(policy, teams[..i + 1], a, current) ==
      if AgentMember(a) in teams[i].members then PolicyTeamId(policy, teams[i])
      else MemberTeamId(policy, teams[..i], a, current)
  {
    var upTo := teams[..i + 1];
    assert upTo[..|upTo| - 1] == teams[..i] && upTo[|upTo| - 1] == teams[i];
    forall a, current
      ensures MemberTeamId(policy, upTo, a, current) ==
        (if AgentMember(a) in teams[i].members then PolicyTeamId(policy, teams[i])
         else MemberTeamId(policy, teams[..i], a, current))
    {
    }
  }

  /** Taking one more team adds exactly its agent members. */
  lemma MemberAgentsStep(teams: seq<Team>, i: nat)
    requires i < |teams|
    ensures forall a :: a in MemberAgents(teams[..i + 1]) <==> a in MemberAgents(teams[..i]) || AgentMember(a) in teams[i].members
  {
    assert teams[..i + 1][..i] == teams[..i];
    forall a: Agent
      ensures a in AgentsOf(teams[i].members) <==> AgentMember(a) in teams[i].members
    {
      AgentsOfMembership(teams[i].members, a);
    }
  }

  /** `for team in teams: FillTeam(team)`. */
  method FillTeams(teams: seq<Team>, appId: string, policy: MemberPolicy) returns (made: seq<Call>)
    modifies TeamSet(teams)`appId, AgentSet(MemberAgents(teams))`appId, AgentSet(MemberAgents(teams))`teamId
    ensures forall t :: t in teams ==> t.appId == FillIfFalsy(old(t.appId), appId)
    ensures forall a :: a in MemberAgents(teams) && old(allocated(a)) ==>
      a.appId == FillIfFalsy(old(a.appId), appId) && a.teamId == MemberTeamId(policy, teams, a, old(a.teamId))
    ensures made == TeamInitCalls(teams)
  {
    made := [];
    for i := 0 to |teams|
      invariant forall t :: t in teams ==> t.appId == if t in teams[..i] then FillIfFalsy(old(t.appId), appId) else old(t.appId)
      invariant forall a :: a in MemberAgents(teams) && old(allocated(a)) ==>
        a.appId == if a in MemberAgents(teams[..i]) then FillIfFalsy(old(a.appId), appId) else old(a.appId)
      invariant forall a :: a in MemberAgents(teams) && old(allocated(a)) ==>
        a.teamId == MemberTeamId(policy, teams[..i], a, old(a.teamId))
      invariant made == TeamInitCalls(teams[..i])
    {
      var t := teams[i];
      PrefixStep(teams, i);
      TeamInitCallsStep(teams, i);
      MemberAgentsCover(teams, i);
      MemberAgentsStep(teams, i);
      MemberTeamIdStep(policy, teams, i);
      MemberAgentSetMembership(t.members);
      var forTeam := FillTeam(t, appId, policy);
      made := made + forTeam;
    }
    assert teams[..|teams|] == teams;
  }

  /** Agents first, then teams with their members, as every adapter does it. */
  method NormaliseComponents(agents: seq<Agent>, teams: seq<Team>, appId: string, policy: MemberPolicy)
    returns (made: seq<Call>)
    modifies AgentSet(agents)`appId, TeamSet(teams)`appId,
      AgentSet(MemberAgents(teams))`appId, AgentSet(MemberAgents(teams))`teamId
    ensures ComponentsNormalised(agents, teams, appId, policy,
                                 old(AgentsIds(TouchedAgents(agents, teams))), old(TeamsAppIds(TeamSet(teams))))
    ensures made == InitCalls(agents, teams)
  {
    ghost var before := AgentsIds(TouchedAgents(agents, teams));
    assert forall a :: a in TouchedAgents(agents, teams) ==> allocated(a);
    var forAgents := FillAgents(agents, appId);
    var forTeams := FillTeams(teams, appId, policy);
    forall a | a in agents && a !in MemberAgents(teams)
      ensures MemberTeamId(policy, teams, a, old(a.teamId)) == old(a.teamId)
    {
      MemberTeamIdOutsider(policy, teams, a, old(a.teamId));
    }
    made := forAgents + forTeams;
  }

  /** `for workflow in workflows: fill app_id; if not workflow_id: generate it`. */
  method FillWorkflows(workflows: seq<Workflow>, appId: string, generateId: Option<string> -> Id)
    returns (made: seq<Call>)
    modifies WorkflowSet(workflows)`appId, WorkflowSet(workflows)`workflowId
    ensures WorkflowsNormalised(workflows, appId, generateId, old(WorkflowsIds(WorkflowSet(workflows))))
    ensures made == GenerateCalls(workflows, old(LackingIds(workflows)))
  {
    ghost var lacking := LackingIds(workflows);
    made := [];
    for i := 0 to |workflows|
      invariant forall w :: w in workflows ==>
        w.appId == if w in workflows[..i] then FillIfFalsy(old(w.appId), appId) else old(w.appId)
      invariant forall w :: w in workflows ==>
        w.workflowId == if w in workflows[..i] && w in lacking then Some(generateId(w.name)) else old(w.workflowId)
      invariant made == GenerateCalls(workflows[..i], lacking)
    {
      var w := workflows[i];
      PrefixStep(workflows, i);
      GenerateCallsStep(workflows, i, lacking);
      assert Falsy(w.workflowId) <==> w in lacking && w !in workflows[..i];
      if Falsy(w.appId) {
        w.appId := Some(appId);
      }
      if Falsy(w.workflowId) {
        w.workflowId := Some(generateId(w.name));
        made := made + [GenerateId(w)];
      }
    }
    assert workflows[..|workflows|] == workflows;
  }

  /** The whole of an adapter's component set-up: agents, then teams and their
      members, then workflows. */
  method Normalise(agents: seq<Agent>, teams: seq<Team>, workflows: seq<Workflow>, appId: string,
                   policy: MemberPolicy, generateId: Option<string> -> Id)
    returns (made: seq<Call>)
    modifies AgentSet(agents)`appId, TeamSet(teams)`appId,
      AgentSet(MemberAgents(teams))`appId, AgentSet(MemberAgents(teams))`teamId,
      WorkflowSet(workflows)`appId, WorkflowSet(workflows)`workflowId
    ensures ComponentsNormalised(agents, teams, appId, policy,
                                 old(AgentsIds(TouchedAgents(agents, teams))), old(TeamsAppIds(TeamSet(teams))))
    ensures WorkflowsNormalised(workflows, appId, generateId, old(WorkflowsIds(WorkflowSet(workflows))))
    ensures made == InitCalls(agents, teams) + GenerateCalls(workflows, old(LackingIds(workflows)))
  {
    ghost var agentsBefore := AgentsIds(TouchedAgents(agents, teams));
    ghost var teamsBefore := TeamsAppIds(TeamSet(teams));
    ghost var workflowsBefore := WorkflowsIds(WorkflowSet(workflows));
    ghost var lacking := LackingIds(workflows);
    var forComponents := NormaliseComponents(agents, teams, appId, policy);
    assert ComponentsNormalised(agents, teams, appId, policy, agentsBefore, teamsBefore);
    assert WorkflowsIds(WorkflowSet(workflows)) == workflowsBefore;
    assert LackingIds(workflows) == lacking;
    var forWorkflows := FillWorkflows(workflows, appId, generateId);
    assert ComponentsNormalised(agents, teams, appId, policy, agentsBefore, teamsBefore);
    made := forComponents + forWorkflows;
  }
}
