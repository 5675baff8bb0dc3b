/**
 * `create_software_team`: an orchestrator in the requested mode with the
 * four agents of the software team registered in a fixed order. Each
 * agent's persona comes from the configuration loader; its language model
 * is the script of replies `scripts` gives for its agent name.
 */
module TeamFactory {
  import opened Basics
  import opened Text
  import opened PyJson
  import opened TaskModel
  import opened SoftwareTeam
  import opened Collaboration
  import opened Config

  /** `mode_map[name]`: the mode a lower-cased mode name stands for. */
  function ModeNamed(name: string): (r: Option<Mode>)
    ensures r.Some? ==> ModeValue(r.value) == name
  {
    if name == "sequential" then Some(Sequential)
    else if name == "parallel" then Some(Parallel)
    else if name == "hierarchical" then Some(Hierarchical)
    else None
  }

  /** Every mode is found under its own value, so matching ignores case exactly as far as `lower()` goes. */
  lemma ModeNamedValue(mode: Mode)
    ensures ModeNamed(ModeValue(mode)) == Some(mode)
  {
  }

  /** The team for a mode, in registration order. */
  function TeamKinds(mode: Mode): (kinds: seq<Specialist>)
    ensures |kinds| == 4 && forall i :: 0 <= i < 4 ==> kinds[i] != Generic
    ensures mode == Hierarchical ==> kinds[0] == Coordinator && kinds[1..] == [Planner, Coder, Tester]
    ensures mode != Hierarchical ==> kinds == [Planner, Coder, Tester, Reviewer]
  {
    if mode == Hierarchical then [Coordinator, Planner, Coder, Tester] else [Planner, Coder, Tester, Reviewer]
  }

  /** Different specialists register under different roles. */
  lemma RoleNamesDiffer(a: Specialist, b: Specialist)
    requires a != Generic && b != Generic && a != b
    ensures RoleName(a) != RoleName(b)
  {
    if RoleName(a)[0] == RoleName(b)[0] {
      assert |RoleName(a)| != |RoleName(b)|;
    }
  }

  /** The four agents of a team register under four different roles. */
  lemma TeamRolesDiffer(mode: Mode, j: nat, k: nat)
    requires j < k < 4
    ensures RoleName(TeamKinds(mode)[j]) != RoleName(TeamKinds(mode)[k])
  {
    var kinds := TeamKinds(mode);
    if mode == Hierarchical {
      assert kinds == [Coordinator, Planner, Coder, Tester];
    }
    RoleNamesDiffer(kinds[j], kinds[k]);
  }

  /** The four agents of a team register under four different roles. */
  lemma TeamRolesDistinct(mode: Mode)
    ensures forall j, k :: 0 <= j < k < 4 ==> RoleName(TeamKinds(mode)[j]) != RoleName(TeamKinds(mode)[k])
  {
    forall j: nat, k: nat | j < k < 4
      ensures RoleName(TeamKinds(mode)[j]) != RoleName(TeamKinds(mode)[k])
    {
      TeamRolesDiffer(mode, j, k);
    }
  }

  /**
   * The persona `BaseAgent.__init__` reads for an agent name from a loaded
   * configuration: `config['persona_prompt']` of the entry
   * `get_agent_config` finds, which must also name a `model`. `None` where
   * the constructor raises.
   */
  function PersonaFor(config: Option<Json>, agentName: string): (r: Option<Json>)
    ensures r.Some? <==> (var e := Entry(config, "agents", agentName, AgentMissing(agentName));
      e.Found? && e.value.JObj? && HasKey(e.value.fields, "persona_prompt") && HasKey(e.value.fields, "model"))
    ensures r.Some? ==> r == Get(Entry(config, "agents", agentName, AgentMissing(agentName)).value.fields, "persona_prompt")
  {
    match Entry(config, "agents", agentName, AgentMissing(agentName))
    case Found(entry) =>
      if entry.JObj? && HasKey(entry.fields, "persona_prompt") && HasKey(entry.fields, "model")
      then Get(entry.fields, "persona_prompt") else None
    case _ => None
  }

  /** The persona each agent's constructor reads from a loaded configuration, by agent name. */
  function Personas(config: Option<Json>): string -> Option<Json> {
    agentName => PersonaFor(config, agentName)
  }

  /** A specialist's constructor, reading its persona from `personas`: `null` where that raises. */
  method NewSpecialist(kind: Specialist, personas: string -> Option<Json>, scripts: string -> seq<Reply>)
    returns (agent: CollaborationAgent?)
    requires kind != Generic
    ensures agent == null <==> personas(AgentName(kind)).None?
    ensures agent != null ==>
      fresh(agent) && agent.kind == kind && agent.agentName == AgentName(kind) && agent.role == RoleName(kind)
      && agent.persona == personas(AgentName(kind)).value
      && agent.replies == scripts(AgentName(kind)) && agent.prompts == [] && agent.history == [] && agent.received == []
      && agent.Faithful()
  {
    match personas(AgentName(kind)) {
      case None => agent := null;
      case Some(persona) => agent := new CollaborationAgent(AgentName(kind), RoleName(kind), kind, persona, scripts(AgentName(kind)));
    }
  }

  /** Every agent of the team can be built. */
  predicate Configured(personas: string -> Option<Json>, kinds: seq<Specialist>)
    requires forall i :: 0 <= i < |kinds| ==> kinds[i] != Generic
  {
    forall i :: 0 <= i < |kinds| ==> personas(AgentName(kinds[i])).Some?
  }

  /**
   * A list display of agents of `kinds`, whose constructors run left to
   * right: `ok` is false when one of them raises, and those to its right
   * are then never built.
   */
  method BuildTeam(kinds: seq<Specialist>, personas: string -> Option<Json>, scripts: string -> seq<Reply>)
    returns (team: seq<CollaborationAgent>, ok: bool)
    requires forall i :: 0 <= i < |kinds| ==> kinds[i] != Generic
    decreases |kinds|
    ensures ok <==> Configured(personas, kinds)
    ensures ok ==> |team| == |kinds| && forall j :: 0 <= j < |kinds| ==>
      fresh(team[j]) && team[j].kind == kinds[j] && team[j].role == RoleName(kinds[j])
      && team[j].persona == personas(AgentName(kinds[j])).value && team[j].replies == scripts(AgentName(kinds[j]))
      && team[j].prompts == [] && team[j].history == [] && team[j].received == [] && team[j].Faithful()
  {
    if |kinds| == 0 {
      return [], true;
    }
    var first := NewSpecialist(kinds[0], personas, scripts);
    if first == null {
      return [], false;
    }
    var agent: CollaborationAgent := first;
    var rest;
    rest, ok := BuildTeam(kinds[1..], personas, scripts);
    team := [agent] + rest;
    assert forall j :: 1 <= j < |kinds| ==> kinds[j] == kinds[1..][j - 1];
  }

  /** `for agent in agents: orchestrator.register_agent(agent)`, for agents of different roles. */
  method RegisterAll(orchestrator: Orchestrator, team: seq<CollaborationAgent>)
    requires orchestrator.Valid() && orchestrator.roles == [] && orchestrator.agents == map[]
    requires forall j, k :: 0 <= j < k < |team| ==> team[j].role != team[k].role
    modifies orchestrator
    ensures orchestrator.Valid() && orchestrator.results == old(orchestrator.results)
    ensures |orchestrator.roles| == |team|
    ensures forall j :: 0 <= j < |team| ==>
      orchestrator.roles[j] == team[j].role && orchestrator.agents[orchestrator.roles[j]] == team[j]
  {
    var i := 0;
    while i < |team|
      invariant 0 <= i <= |team|
      invariant orchestrator.Valid() && orchestrator.results == old(orchestrator.results)
      invariant |orchestrator.roles| == i
      invariant forall j :: 0 <= j < i ==>
        orchestrator.roles[j] == team[j].role && orchestrator.agents[orchestrator.roles[j]] == team[j]
    {
      assert team[i].role !in orchestrator.roles;
      ghost var roles, agents := orchestrator.roles, orchestrator.agents;
      orchestrator.Register(team[i]);
      RegisteredNext(roles, agents, team, i);
      i := i + 1;
    }
  }

  /** Registering the next agent of a team keeps the earlier ones where they were and puts it last. */
  lemma RegisteredNext(roles: seq<string>, agents: map<string, CollaborationAgent>, team: seq<CollaborationAgent>, i: nat)
    requires i < |team| && |roles| == i && team[i].role !in roles
    requires forall j, k :: 0 <= j < k < |team| ==> team[j].role != team[k].role
    requires forall j :: 0 <= j < i ==> roles[j] == team[j].role && roles[j] in agents && agents[roles[j]] == team[j]
    ensures forall j :: 0 <= j < i + 1 ==>
      (roles + [team[i].role])[j] == team[j].role && (agents[team[i].role := team[i]])[(roles + [team[i].role])[j]] == team[j]
  {
  }

  /**
   * `create_software_team`. An unknown mode raises at the `mode_map`
   * lookup, before any agent is built; an agent whose configuration is
   * unusable raises in its constructor. Otherwise the orchestrator has the
   * mode's four agents, fresh, registered in order under their roles, and
   * no results yet.
   */
  method CreateSoftwareTeam(mode: string, loader: ConfigLoader, scripts: string -> seq<Reply>)
    returns (orchestrator: Orchestrator?, team: seq<CollaborationAgent>)
    ensures ModeNamed(Lower(mode)).None? ==> orchestrator == null
    ensures orchestrator != null <==> ModeNamed(Lower(mode)).Some? && Configured(Personas(loader.config), TeamKinds(ModeNamed(Lower(mode)).value))
    ensures orchestrator != null ==>
      var kinds := TeamKinds(ModeNamed(Lower(mode)).value);
      fresh(orchestrator) && orchestrator.Valid() && orchestrator.Scripted() && orchestrator.mode == ModeNamed(Lower(mode)).value
      && orchestrator.results == [] && |team| == 4 && |orchestrator.roles| == 4
      && forall i :: 0 <= i < 4 ==>
           fresh(team[i]) && team[i].kind == kinds[i] && team[i].persona == PersonaFor(loader.config, AgentName(kinds[i])).value
           && team[i].replies == scripts(AgentName(kinds[i])) && team[i].prompts == [] && team[i].history == [] && team[i].received == []
           && orchestrator.roles[i] == RoleName(kinds[i]) && orchestrator.agents[orchestrator.roles[i]] == team[i]
  {
    team := [];
    var m := ModeNamed(Lower(mode));
    if m.None? {
      // `KeyError` from `mode_map[mode.lower()]`
      return null, team;
    }
    orchestrator, team := Assemble(m.value, Personas(loader.config), scripts);
  }

  /** `create_software_team` once the mode is known: build the four agents, then register them. */
  method Assemble(mode: Mode, personas: string -> Option<Json>, scripts: string -> seq<Reply>)
    returns (orchestrator: Orchestrator?, team: seq<CollaborationAgent>)
    ensures orchestrator != null <==> Configured(personas, TeamKinds(mode))
    ensures orchestrator != null ==>
      var kinds := TeamKinds(mode);
      fresh(orchestrator) && orchestrator.Valid() && orchestrator.Scripted() && orchestrator.mode == mode
      && orchestrator.results == [] && |team| == 4 && |orchestrator.roles| == 4
      && forall i :: 0 <= i < 4 ==>
           fresh(team[i]) && team[i].kind == kinds[i] && team[i].persona == personas(AgentName(kinds[i])).value
           && team[i].replies == scripts(AgentName(kinds[i])) && team[i].prompts == [] && team[i].history == [] && team[i].received == []
           && orchestrator.roles[i] == RoleName(kinds[i]) && orchestrator.agents[orchestrator.roles[i]] == team[i]
  {
    orchestrator := new Orchestrator(mode);
    var kinds := TeamKinds(mode);
    var ok;
    team, ok := BuildTeam(kinds, personas, scripts);
    if !ok {
      return null, team;
    }
    Enrol(orchestrator, team, mode);
  }

  /** The registration loop of `create_software_team`, for a freshly built team of the mode's kinds. */
  method Enrol(orchestrator: Orchestrator, team: seq<CollaborationAgent>, mode: Mode)
    requires orchestrator.Valid() && orchestrator.roles == [] && orchestrator.agents == map[] && orchestrator.results == []
    requires |team| == 4 && forall j :: 0 <= j < 4 ==> team[j].role == RoleName(TeamKinds(mode)[j])
    modifies orchestrator
    ensures orchestrator.Valid() && orchestrator.results == [] && |orchestrator.roles| == 4
    ensures forall i :: 0 <= i < 4 ==>
      orchestrator.roles[i] == RoleName(TeamKinds(mode)[i]) && orchestrator.agents[orchestrator.roles[i]] == team[i]
  {
    TeamRolesDistinct(mode);
    RegisterAll(orchestrator, team);
  }
}
