# agno app adapters — a verified model

agno exposes its agents, teams and workflows to web frameworks through
"app" adapters. This project models the deterministic rule logic of three
of them:

- `DjangoNinjaApp` (`libs/agno/agno/app/django/app.py`), which mounts
  components on a Django-Ninja API;
- the abstract `BaseAPIApp` (`libs/agno/agno/app/base.py`), which holds
  exactly one agent or team;
- `FastAPIApp` (`libs/agno/agno/app/fastapi/app.py`), which holds lists of
  agents, teams and workflows.

What is modelled:

- **Construction.** The checks on what was given (`ValueError`) come first.
  Then the app id is chosen, and the components are *normalised* in place:
  - a falsy `app_id` is filled;
  - a team's agent members get a `team_id` — the team's own id (Django) or
    None (FastAPI, base);
  - a falsy `workflow_id` gets `generate_id(name)`.
- **Calls into the agent library.** `initialize_agent()`,
  `initialize_team()`, `generate_id`, `register_*`, `create_app` and
  `uvicorn.run` are recorded as `Call` events in the order they are made.
  `uuid4()` and `generate_id` are parameters. Both produce non-empty strings.
- **Django request handlers.** This covers the authentication gate, the
  `session_id`/`user_id` fallbacks, the knowledge-base precondition of
  `agent_upload`, and the choice of document reader by content type.
- **Platform configuration.** This covers `_to_dict()` (Django) and
  `to_dict()` (base and FastAPI).
- **FastAPI `serve`.** It sets the app id and attempts the platform
  registration. Because `FastAPIApp` never sets the inherited `agent` and
  `team` attributes, that attempt creates no app (see Findings). It then
  registers every agent, team and workflow, in order. Finally it starts the
  server. An exception from a registration ends `serve`. An intended
  variant, `ServeIntended`, creates the app when monitoring is on.

Components are classes whose `app_id`, `team_id` and `workflow_id` fields
the adapters rewrite. Aliasing is allowed: one agent may appear several
times, in the agent list and as a member of several teams. The Django app's
own state is never updated after construction, so it is a datatype. The
base and FastAPI apps update `app_id` and `monitoring`, so they are classes.

Modules:

- `Wrappers` — Option and Result.
- `Components` — agents, teams, workflows, JSON values and the `Call` log.
- `Registry` — the normalisation and registration loops shared by the
  adapters, their specification functions, and lemmas about them.
- `DjangoNinja`, `BaseApp` and `FastApi` — one per adapter.

## Model

| member | source | states |
|---|---|---|
| Components.AgentEntry | libs/agno/agno/app/django/app.py:353-357 | an agent's platform entry is its configuration dictionary with `agent_id` and `team_id` written over it; every other configuration key keeps its value |
| Components.TeamEntry | libs/agno/agno/app/django/app.py:361-364 | a team's platform entry is its platform dictionary with `team_id` written over it; every other key keeps its value |
| Registry.AgentsOfMembership | libs/agno/agno/app/django/app.py:148-155 | an agent is among a team's agent members exactly when it is an `Agent` member of that team |
| Registry.MemberTeamIdOutsider | libs/agno/agno/app/django/app.py:142-155 | an agent that is no team's member keeps its `team_id` |
| Registry.MemberTeamIdLastOwner | libs/agno/agno/app/django/app.py:142-152 | an agent in several teams ends with the `team_id` the last of them gives |
| Registry.ResetClearsMembers | libs/agno/agno/app/base.py:167-172 | under the FastAPI/base policy every agent member ends with `team_id` None, whatever it had |
| Registry.AgentInitCallsCount | libs/agno/agno/app/django/app.py:137-140 | `initialize_agent()` is called once per occurrence of an agent in the list, and that loop never calls `initialize_team()` |
| Registry.MemberInitCallsCount | libs/agno/agno/app/django/app.py:148-155 | a team's members cause one `initialize_agent()` per agent member and one `initialize_team()` per nested team member |
| Registry.TeamInitCallsCount | libs/agno/agno/app/django/app.py:142-155 | the team loop calls `initialize_team()` once per listed team and once per nested membership, and `initialize_agent()` once per agent membership |
| Registry.InitCallsCount | libs/agno/agno/app/fastapi/app.py:139-158 | over the whole normalisation, each agent is initialised once per appearance (listed or as a member) and each team once per appearance |
| Registry.GenerateCallsOnce | libs/agno/agno/app/fastapi/app.py:160-165 | `generate_id` is called exactly once for each listed workflow that lacked a `workflow_id`, and never for one that had it |
| Registry.RegistrationCalls | libs/agno/agno/app/fastapi/app.py:185-195 | the registrations attempted are every agent, then every team, then every workflow, each at its list position |
| Registry.RegistrationsOnly | libs/agno/agno/app/fastapi/app.py:185-195 | the registration loops attempt nothing but `register_*` calls |
| Registry.AnyRaisesAt | libs/agno/agno/app/fastapi/app.py:185-195 | an attempted sequence raises exactly when some position in it holds a raising call |
| Registry.UntilFailureShape | libs/agno/agno/app/fastapi/app.py:185-195 | with no guard around the loops, the calls made are a prefix of those attempted; all but the last succeeded; the last raised exactly when some attempted call raises; with no raising call, everything is made |
| Registry.StopsAt | libs/agno/agno/app/fastapi/app.py:185-195 | when the call at position k is the first that raises, exactly the calls up to and including k are made |
| Registry.AnyRaisesConcat | libs/agno/agno/app/fastapi/app.py:185-195 | two loops in turn raise exactly when one of them does |
| Registry.UntilFailureConcat | libs/agno/agno/app/fastapi/app.py:185-195 | the second loop runs only when no call of the first raised |
| Registry.RegisterAgents | libs/agno/agno/app/fastapi/app.py:185-187 | the agent loop registers agents in order until one raises, and reports whether one did |
| Registry.RegisterTeams | libs/agno/agno/app/fastapi/app.py:189-191 | the team loop registers teams in order until one raises, and reports whether one did |
| Registry.RegisterWorkflows | libs/agno/agno/app/fastapi/app.py:193-195 | the workflow loop registers workflows in order until one raises, and reports whether one did |
| Registry.AttemptedRegistrationsOnly | libs/agno/agno/app/fastapi/app.py:185-198 | however early registration stops, it never makes a call other than `register_*` |
| Registry.RegisterAll | libs/agno/agno/app/django/app.py:334-341 | agents, then teams, then workflows are registered, in order, and the first exception ends all three loops |
| Registry.FillAgents | libs/agno/agno/app/django/app.py:137-140 | every listed agent has its `app_id` filled only if it was falsy, and is initialised once per occurrence, in order |
| Registry.FillMember | libs/agno/agno/app/django/app.py:148-155 | an agent member gets its `app_id` filled if falsy and the given `team_id`, then is initialised; a nested team is only re-initialised |
| Registry.FillMembers | libs/agno/agno/app/django/app.py:148-155 | every agent member of a team has its `app_id` filled if falsy and the given `team_id`; the calls are the members' calls in member order |
| Registry.FillTeam | libs/agno/agno/app/django/app.py:142-155 | a team's `app_id` is filled if falsy; its agent members get the `team_id` the adapter's policy gives; `initialize_team()` precedes its members' calls |
| Registry.FillTeams | libs/agno/agno/app/django/app.py:142-155 | after the team loop every team's `app_id` is filled if falsy, and every agent member holds the `team_id` its last team gave |
| Registry.NormaliseComponents | libs/agno/agno/app/base.py:158-174 | listed agents, teams and agent members are left in the normalised state measured against their fields before; the calls are all agents' then all teams' initialisation calls |
| Registry.FillWorkflows | libs/agno/agno/app/django/app.py:157-161 | every listed workflow has its `app_id` filled if falsy and, if its `workflow_id` was falsy, the id `generate_id` gives for its name; one `generate_id` per workflow that lacked one |
| Registry.Normalise | libs/agno/agno/app/django/app.py:135-161 | agents, teams and members are normalised, then workflows, and the call log is the initialisation calls followed by the `generate_id` calls |
| Components.OrEmpty | libs/agno/agno/app/django/app.py:115-117 | an omitted or empty list becomes `[]`, and a given list is kept; the same holds for what the FastAPI adapter's `if xs: for x in xs` visits |
| DjangoNinja.RStripSlash | libs/agno/agno/app/django/app.py:118 | the prefix loses exactly its trailing slashes: the result is a prefix of the input, does not end in '/', and only '/' were dropped |
| DjangoNinja.RStripSlashIdempotent | libs/agno/agno/app/django/app.py:118 | stripping an already stripped prefix changes nothing |
| DjangoNinja.ReaderFor | libs/agno/agno/app/django/app.py:299-318 | a reader is chosen only for its own content type, and each of the five document types gets its reader |
| DjangoNinja.MimeOfInjective | libs/agno/agno/app/django/app.py:299-317 | no two readers share a content type |
| DjangoNinja.ReaderForAccepts | libs/agno/agno/app/django/app.py:299-320 | a content type is accepted exactly when it is one of the five document types |
| DjangoNinja.ProcessUploadedFile | libs/agno/agno/app/django/app.py:299-320 | the reader for the file's content type, or — exactly for every other content type, a missing one included — the "Unsupported file type" ValueError |
| DjangoNinja.Decimal | libs/agno/agno/app/django/app.py:204 | `str(user.id)` is a non-empty string of decimal digits with no leading zero whose value, read back by `DigitsValue`, is the id itself |
| DjangoNinja.SessionIdFor | libs/agno/agno/app/django/app.py:203 | the request's `session_id` when truthy, else the Django session key |
| DjangoNinja.UserIdFor | libs/agno/agno/app/django/app.py:204 | the request's `user_id` when truthy, else the user's id for an authenticated user, else None |
| DjangoNinja.Chat | libs/agno/agno/app/django/app.py:199-221 | with `require_auth` and an anonymous user the answer is 401 and `run` is never called; otherwise `run` gets the message, the fallback session and user ids and the stream flag; its exception becomes a 500; its content is answered with the agent's or team's id and the session id |
| DjangoNinja.AnonymousRunWithoutAuth | libs/agno/agno/app/django/app.py:199-204 | without `require_auth` an anonymous caller is still run, with only the request's own `user_id` |
| DjangoNinja.Upload | libs/agno/agno/app/django/app.py:225-245 | 401 for an anonymous user under `require_auth`, then 400 for an agent without knowledge, both before any file processing; a reader is used exactly when both gates pass and the content type is supported; an unsupported type or an ingestion error is a 500; success names the file and the agent |
| DjangoNinja.AgentEntries | libs/agno/agno/app/django/app.py:352-358 | one agent entry per agent, in list order |
| DjangoNinja.TeamEntries | libs/agno/agno/app/django/app.py:360-365 | one team entry per team, in list order |
| DjangoNinja.WorkflowEntries | libs/agno/agno/app/django/app.py:367-372 | one entry per workflow, in list order, holding exactly its `workflow_id` and `name` |
| DjangoNinja.Section | libs/agno/agno/app/django/app.py:359 | a section is null exactly when it has no entries |
| DjangoNinja.DjangoNinjaApp.ToDict | libs/agno/agno/app/django/app.py:346-374 | every key is present; `type` is "django-ninja"; each of the agents, teams and workflows sections is null exactly when its list is empty and otherwise lists its entries in order |
| DjangoNinja.DjangoNinjaApp.CreateAppCall | libs/agno/agno/app/django/app.py:327-331 | `create_app` gets the app's name or "Django Ninja App" when it is falsy, the app id and the configuration |
| DjangoNinja.DjangoNinjaApp.PlatformCalls | libs/agno/agno/app/django/app.py:322-344 | `create_app` always comes first; if it raised, nothing follows; otherwise the registrations follow until one raises |
| DjangoNinja.DjangoNinjaApp.RegisterOnPlatform | libs/agno/agno/app/django/app.py:322-344 | the method makes exactly the calls of `PlatformCalls` and never raises |
| DjangoNinja.Create | libs/agno/agno/app/django/app.py:83-161 | with the constructor's defaults (prefix "/agno", authentication required, monitoring on), a ValueError exactly when all three lists are None or empty, with no call made; otherwise the lists default to `[]`, the prefix is stripped, a falsy `app_id` is replaced, the components are normalised with agent members taking their last team's `team_id`, and the calls are the initialisation calls, the `generate_id` calls and, with monitoring, the platform calls |
| DjangoNinja.WorkflowIdsSet | libs/agno/agno/app/django/app.py:157-161 | after normalisation no listed workflow has a falsy `workflow_id` |
| BaseApp.Lower | libs/agno/agno/app/base.py:187 | lower-casing keeps the length and lowers each character in place |
| BaseApp.MonitorFlagSpellings | libs/agno/agno/app/base.py:184-187 | `AGNO_MONITOR` switches monitoring on exactly for the spellings of "true" in any mix of case |
| BaseApp.AppIdAfterSetKeeps | libs/agno/agno/app/base.py:176-182 | `set_app_id()` always leaves an id, never replaces an existing one, and a second call changes nothing |
| BaseApp.Payload | libs/agno/agno/app/base.py:283-306 | `to_dict()` never holds a None value, and it has no keys other than agents, teams, type and description |
| BaseApp.PayloadEntries | libs/agno/agno/app/base.py:283-306 | "agents" is present exactly when an agent is set and "teams" exactly when a team is set, each as a one-entry list; type and description are present exactly when not None |
| BaseApp.BaseApiApp.constructor | libs/agno/agno/app/base.py:147-155 | the fields hold what was given |
| BaseApp.BaseApiApp.SetAppId | libs/agno/agno/app/base.py:176-182 | the id is generated only when `app_id` is None; the stored id is returned |
| BaseApp.BaseApiApp.SetMonitoring | libs/agno/agno/app/base.py:184-187 | with `AGNO_MONITOR` set, monitoring is on exactly when its lower-cased value is "true"; when it is unset, monitoring is unchanged |
| BaseApp.InheritedToDict | libs/agno/agno/app/base.py:283-306 | `to_dict()` raises AttributeError exactly when the `agent`/`team` attributes do not exist; when they do, it returns the filtered payload |
| BaseApp.CreateAppCalls | libs/agno/agno/app/base.py:271-281 | at most one `create_app` call; one exactly when monitoring is on and `to_dict()` did not raise, carrying the name, the app id and that dictionary |
| BaseApp.BaseApiApp.ToDict | libs/agno/agno/app/base.py:283-306 | on the base app, whose constructor sets both attributes, `to_dict()` succeeds with the payload of its agent or team |
| BaseApp.BaseApiApp.RegisterAppOnPlatform | libs/agno/agno/app/base.py:271-281 | no `create_app` call when monitoring is off; otherwise exactly one, with the name, the app id and `to_dict()`; the method always returns normally |
| BaseApp.Create | libs/agno/agno/app/base.py:141-174 | a ValueError for neither and for both of agent and team, with no call made; otherwise the app id is set, the agent or the team and its members are normalised with agent members' `team_id` cleared, and each is initialised once |
| FastApi.FastApiApp.constructor | libs/agno/agno/app/fastapi/app.py:109-136 | the lists are stored exactly as given, so an omitted kind stays None; the `agent`/`team` attributes do not exist, since `BaseAPIApp.__init__` is never called |
| FastApi.FastApiApp.SetAppId | libs/agno/agno/app/base.py:176-182 | the inherited `set_app_id()`: the id is generated only when `app_id` is None |
| FastApi.FastApiApp.SetMonitoring | libs/agno/agno/app/base.py:184-187 | the inherited `_set_monitoring()` |
| FastApi.FastApiApp.ToDict | libs/agno/agno/app/base.py:283-292 | the inherited `to_dict()` on this class fails with AttributeError, since `self.agent` was never set |
| FastApi.FastApiApp.RegisterAppOnPlatform | libs/agno/agno/app/base.py:271-281 | the inherited `register_app_on_platform()`: at most the one `create_app` call `to_dict()` allows, so on this class none at all; monitoring is settled from `AGNO_MONITOR` |
| FastApi.FastApiApp.IntendedToDict | libs/agno/agno/app/base.py:283-306 | the payload `to_dict()` would return with both attributes set to None: no agents or teams entry, type "fastapi", and a description exactly when one was given |
| FastApi.FastApiApp.RegisterAppOnPlatformIntended | libs/agno/agno/app/base.py:271-281 | with the attributes set: no `create_app` call when monitoring is off; otherwise exactly one, carrying the intended payload |
| FastApi.FastApiApp.Serve | libs/agno/agno/app/fastapi/app.py:173-198 | the app id is set and monitoring settled; the calls are those of the inherited platform registration (none on this class), then the registrations until one raises, then `uvicorn.run` only if none raised; `serve` raises exactly when a registration does |
| FastApi.FastApiApp.ServeIntended | libs/agno/agno/app/fastapi/app.py:173-198 | the same steps with the intended platform registration, so with monitoring on the first call creates the app |
| FastApi.ServeEndsWithServer | libs/agno/agno/app/fastapi/app.py:182-198 | with no failing registration, the platform calls come first, then every component is registered once per occurrence, agents then teams then workflows, and `uvicorn.run` is the very last call; the length is exactly the sum of these |
| FastApi.ServeStopsAtFailure | libs/agno/agno/app/fastapi/app.py:185-198 | a registration exception propagates: whatever `create_app` calls came first, the server is never started, and the raising registration is the last call |
| FastApi.Create | libs/agno/agno/app/fastapi/app.py:122-165 | a ValueError exactly when all three lists are None or empty; otherwise the lists are kept as given, the app id is set, the `agent`/`team` attributes do not exist, the components are normalised with agent members' `team_id` cleared, and the calls are the initialisation calls then one `generate_id` per workflow lacking an id |

## Left out

- Route registration through the NinjaAPI and FastAPI decorators,
  `get_app` with its middleware and CORS setup, the status and workflow-run
  endpoints, and `get_router`/`get_async_router`. This is framework
  plumbing with no rule logic.
- The FastAPI routers (`sync_router`/`async_router`) and the universal
  `/runs` endpoint. These are not part of this model.
- `BaseAPIApp.serve`. It is the single-component form of the FastAPI
  `serve`, which is modelled.
- `run`, `initialize_*`, `register_*`, `get_agent_config_dict` and
  `to_platform_dict` belong to the agent library.
  - The first four are recorded as calls.
  - `run` is a parameter giving content or an exception message.
  - The two dictionaries are constant fields of the component.
- Exceptions from `initialize_agent()`/`initialize_team()`. Construction is
  modelled as if they return.
- The document readers' parsing and `knowledge.load_documents`. They are
  merged into one `ingest` parameter of `DjangoNinja.Upload`, which returns
  the message of the exception raised, if any.
- Streaming responses. The `stream` flag is passed to `run` and nothing
  more.
- Logging, `settings`, `api_app` and `router`. They do not affect the
  modelled behaviour.
- The keyword arguments forwarded to `uvicorn.run`.
- Python object truthiness for agents and teams (`if self.agent:`). A given
  component counts as truthy and an omitted one (None) as falsy.
- Team members that are neither `Agent` nor `Team`. Every adapter skips
  them, and they are not represented.
- The order of keys in the configuration dictionaries. Maps are unordered.
- DjangoNinja.Create: the platform calls are stated as
  `DjangoNinjaApp.PlatformCalls`. The method `RegisterOnPlatform` is
  proved to make exactly those calls, but `Create` does not call it.
- BaseApp.Lower: lowers the ASCII letters only. Python's `str.lower` also
  lowers other Unicode letters. The distinction does not matter for
  comparing against "true".
- DjangoNinja.Decimal: models `str(user.id)` for a non-negative id only.
  Django primary keys are non-negative.
- The `agent_id` of an agent and the `team_id` of a team are constant
  fields. The model takes `initialize_agent()` and `initialize_team()` as
  never assigning them, so a member's `team_id` is its team's id as given
  (libs/agno/agno/app/django/app.py:145,152).
- `generate_id` is a deterministic function of the workflow name, passed
  as a parameter. Two workflows with the same name lacking an id get the
  same id in the model; a `generate_id` that draws fresh ids is not
  modelled.
- Handler responses. The handlers return `(body, status)` pairs
  (libs/agno/agno/app/django/app.py:200,221,227,230,245). The model reads
  each as a response with that status and body. Django Ninja's own
  convention is `(status, body)`; how it treats the reversed pair is
  framework behaviour outside this model.
- DjangoNinja.Upload: answers an unsupported content type with 500. The
  `ValueError` from `_process_uploaded_file` is caught by the handler's
  generic exception clause, not turned into a 400. The model follows the
  code.
- DjangoNinja.DjangoNinjaApp.ToDict: keeps null values for `description`
  and for empty sections. Only the base `to_dict()` filters out None
  values.

## Findings

| source | as written | input that shows it | evidently intended | confidence | as-written member | corrected member |
|---|---|---|---|---|---|---|
| libs/agno/agno/app/fastapi/app.py:109-137 with libs/agno/agno/app/base.py:278,283-292 | `FastAPIApp.__init__` never calls `super().__init__`, so `self.agent` and `self.team` are never set. The inherited `to_dict()` therefore raises AttributeError. `register_app_on_platform()` catches it, so `create_app` is never called. | `FastAPIApp(agents=[agent])` with monitoring on, then `serve(...)`: no app is created on the platform | with monitoring on, `serve` registers the app once with its type and description | not executed | FastApi.FastApiApp.Serve | FastApi.FastApiApp.ServeIntended |
