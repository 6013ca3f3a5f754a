/**
 * The agent manager of the call backend: it reads agent configurations from
 * a directory listing, registers one realtime agent per configuration name,
 * picks the opener agent, and wires handoff edges between registered
 * agents.
 *
 * The directory listing, the file test and the outcome of reading and
 * validating each file are inputs (a DirEntry); agents are referred to by
 * handles, indices into the sequence of every agent object created.
 */
module AgentManagement {
  import opened Wrappers
  import Base64
  import opened Communication

  datatype HandoffConfig = HandoffConfig(agentName: string, condition: string)

  datatype AgentConfig = AgentConfig(
    name: string,
    community: string,
    opener: bool,
    instructions: string,
    tools: seq<string>,
    mcpServer: seq<string>,
    handoffs: seq<HandoffConfig>,
    outputGuardrails: seq<string>)

  /** One name from the directory listing, whether it is a file, and the configuration read from it (None when reading or validating raises). */
  datatype DirEntry = DirEntry(name: string, isFile: bool, config: Option<AgentConfig>)

  /** A handoff of a realtime agent: the target agent and the condition as its tool description. */
  datatype HandoffEdge = HandoffEdge(target: nat, description: string)

  /** A realtime agent object: its name, its instructions and its (growing) handoff list. */
  datatype Agent = Agent(name: string, instructions: string, handoffs: seq<HandoffEdge>)

  // ---------------------------------------------------------------------
  // File suffixes
  // ---------------------------------------------------------------------

  /** The index of the last '.', or -1 when there is none. */
  function LastDot(s: string): (i: int)
    ensures -1 <= i < |s|
    ensures i >= 0 ==> s[i] == '.'
    ensures forall j :: i < j < |s| ==> s[j] != '.'
    decreases |s|
  {
    if s == [] then -1
    else if s[|s| - 1] == '.' then |s| - 1
    else LastDot(s[..|s| - 1])
  }

  /** `Path(name).suffix` for a bare file name: from the last dot on, unless that dot leads or ends the name. */
  function Suffix(name: string): (r: string)
    ensures r == "" || (2 <= |r| <= |name| && r[0] == '.' && r == name[|name| - |r|..] && forall j :: 1 <= j < |r| ==> r[j] != '.')
  {
    var i := LastDot(name);
    if 0 < i < |name| - 1 then name[i..] else ""
  }

  /** The suffixes the loader compares against, as written: without the leading dot. */
  const AsWrittenSuffixes: seq<string> := ["yaml", "yml"]

  /** The suffixes `Path.suffix` actually produces for YAML files. */
  const YamlSuffixes: seq<string> := [".yaml", ".yml"]

  /** No suffix is ever "yaml" or "yml": a suffix is empty or starts with a dot. */
  lemma AsWrittenSuffixNeverMatches(name: string)
    ensures Suffix(name) !in AsWrittenSuffixes
  {
  }

  /** The corrected comparison accepts YAML file names and nothing dot-less. */
  lemma YamlSuffixExamples()
    ensures Suffix("agent.yaml") in YamlSuffixes
    ensures Suffix("agent.v2.yml") in YamlSuffixes
    ensures Suffix(".yaml") !in YamlSuffixes
    ensures Suffix("yaml") !in YamlSuffixes
    ensures Suffix("agent.json") !in YamlSuffixes
  {
    LastDotAt("agent.yaml", 5);
    LastDotAt("agent.v2.yml", 8);
    LastDotAt(".yaml", 0);
    LastDotAt("agent.json", 5);
  }

  /** A dot with no dot after it is the last dot. */
  lemma LastDotAt(s: string, k: nat)
    requires k < |s| && s[k] == '.'
    requires forall j :: k < j < |s| ==> s[j] != '.'
    ensures LastDot(s) == k
  {
  }

  // ---------------------------------------------------------------------
  // Loading
  // ---------------------------------------------------------------------

  /** The configuration an entry contributes, or None when it is skipped: not a file, wrong suffix, or failing to load. */
  function Accepted(e: DirEntry, suffixes: seq<string>): (c: Option<AgentConfig>)
    ensures c.Some? <==> e.isFile && Suffix(e.name) in suffixes && e.config.Some?
    ensures c.Some? ==> c == e.config
  {
    if !e.isFile then None
    else if Suffix(e.name) !in suffixes then None
    else e.config
  }

  /** The manager's dictionaries after loading, with every agent object created so far. */
  datatype Registry = Registry(
    agents: map<string, nat>,
    created: seq<Agent>,
    opener: Option<nat>,
    handoffConfigs: map<string, seq<HandoffConfig>>,
    order: seq<string>)   // the keys of `handoffConfigs` in insertion order

  const EmptyRegistry := Registry(map[], [], None, map[], [])

  /** Registering one configuration: a new agent object under its name, opener if marked, its handoff configurations. */
  function Register(r: Registry, c: AgentConfig): Registry {
    var h := |r.created|;
    Registry(
      r.agents[c.name := h],
      r.created + [Agent(c.name, c.instructions, [])],
      if c.opener then Some(h) else r.opener,
      r.handoffConfigs[c.name := c.handoffs],
      if c.name in r.handoffConfigs then r.order else r.order + [c.name])
  }

  /** `__load_agents` over a listing, comparing suffixes against the given list. */
  function Load(entries: seq<DirEntry>, suffixes: seq<string>): Registry
    decreases |entries|
  {
    if entries == [] then EmptyRegistry
    else
      var r := Load(entries[..|entries| - 1], suffixes);
      match Accepted(entries[|entries| - 1], suffixes)
      case None => r
      case Some(c) => Register(r, c)
  }

  /** The load over one more entry, unfolded once. */
  lemma LoadStep(entries: seq<DirEntry>, k: nat, suffixes: seq<string>)
    requires k < |entries|
    ensures Load(entries[..k + 1], suffixes) ==
      match Accepted(entries[k], suffixes)
      case None => Load(entries[..k], suffixes)
      case Some(c) => Register(Load(entries[..k], suffixes), c)
  {
    assert entries[..k + 1][..k] == entries[..k];
  }

  /** As written, the suffix test rejects every entry, so the manager loads no agent at all. */
  lemma {:induction false} AsWrittenLoadsNothing(entries: seq<DirEntry>)
    ensures Load(entries, AsWrittenSuffixes) == EmptyRegistry
    decreases |entries|
  {
    if entries != [] {
      AsWrittenSuffixNeverMatches(entries[|entries| - 1].name);
      AsWrittenLoadsNothing(entries[..|entries| - 1]);
    }
  }

  /** The shape every loaded registry keeps. */
  ghost predicate WellFormed(r: Registry) {
    && r.agents.Keys == r.handoffConfigs.Keys
    && (forall n :: n in r.order <==> n in r.handoffConfigs)
    && (forall i, j :: 0 <= i < j < |r.order| ==> r.order[i] != r.order[j])
    && (forall n <- r.agents :: r.agents[n] < |r.created| && r.created[r.agents[n]].name == n)
    && (forall n, m :: n in r.agents && m in r.agents && n != m ==> r.agents[n] != r.agents[m])
    && (forall h :: 0 <= h < |r.created| ==> r.created[h].handoffs == [])
    && (r.opener.Some? ==> r.opener.value < |r.created|)
  }

  lemma {:induction false} LoadWellFormed(entries: seq<DirEntry>, suffixes: seq<string>)
    ensures WellFormed(Load(entries, suffixes))
    decreases |entries|
  {
    if entries != [] {
      var r := Load(entries[..|entries| - 1], suffixes);
      LoadWellFormed(entries[..|entries| - 1], suffixes);
      match Accepted(entries[|entries| - 1], suffixes)
      case None =>
      case Some(c) =>
        var r' := Register(r, c);
        assert forall n <- r'.agents :: r'.agents[n] < |r'.created| && r'.created[r'.agents[n]].name == n by {
          forall n <- r'.agents ensures r'.agents[n] < |r'.created| && r'.created[r'.agents[n]].name == n {
            if n != c.name { assert r'.created[r.agents[n]] == r.created[r.agents[n]]; }
          }
        }
        assert forall n :: n in r'.order <==> n in r'.handoffConfigs;
    }
  }

  /** The last accepted configuration with a given name, searched from the end of the listing. */
  function LastNamed(entries: seq<DirEntry>, suffixes: seq<string>, name: string): Option<AgentConfig>
    decreases |entries|
  {
    if entries == [] then None
    else
      var c := Accepted(entries[|entries| - 1], suffixes);
      if c.Some? && c.value.name == name then c
      else LastNamed(entries[..|entries| - 1], suffixes, name)
  }

  /** The last accepted configuration marked as opener. */
  function LastOpener(entries: seq<DirEntry>, suffixes: seq<string>): Option<AgentConfig>
    decreases |entries|
  {
    if entries == [] then None
    else
      var c := Accepted(entries[|entries| - 1], suffixes);
      if c.Some? && c.value.opener then c
      else LastOpener(entries[..|entries| - 1], suffixes)
  }

  /**
   * Agents are keyed by name and the last configuration wins: a name is
   * registered exactly when some accepted configuration carries it, and the
   * agent and handoff list registered under it come from the last such one.
   */
  lemma {:induction false} LoadLastWins(entries: seq<DirEntry>, suffixes: seq<string>, name: string)
    ensures var r := Load(entries, suffixes);
      && (name in r.agents <==> LastNamed(entries, suffixes, name).Some?)
      && (name in r.agents ==>
            var c := LastNamed(entries, suffixes, name).value;
            r.agents[name] < |r.created| &&
            r.created[r.agents[name]] == Agent(name, c.instructions, []) &&
            name in r.handoffConfigs && r.handoffConfigs[name] == c.handoffs)
    decreases |entries|
  {
    if entries != [] {
      var prefix := entries[..|entries| - 1];
      LoadLastWins(prefix, suffixes, name);
      var r := Load(prefix, suffixes);
      var c := Accepted(entries[|entries| - 1], suffixes);
      if c.Some? && c.value.name != name && name in r.agents {
        assert Register(r, c.value).created[r.agents[name]] == r.created[r.agents[name]];
      }
    }
  }

  /** The opener is the last accepted configuration marked as opener, and there is none when no configuration is marked. */
  lemma {:induction false} LoadOpenerIsLast(entries: seq<DirEntry>, suffixes: seq<string>)
    ensures var r := Load(entries, suffixes);
      && (r.opener.Some? <==> LastOpener(entries, suffixes).Some?)
      && (r.opener.Some? ==>
            var c := LastOpener(entries, suffixes).value;
            r.opener.value < |r.created| && r.created[r.opener.value] == Agent(c.name, c.instructions, []))
    decreases |entries|
  {
    if entries != [] {
      var prefix := entries[..|entries| - 1];
      LoadOpenerIsLast(prefix, suffixes);
      var r := Load(prefix, suffixes);
      var c := Accepted(entries[|entries| - 1], suffixes);
      if c.Some? && !c.value.opener && r.opener.Some? {
        assert Register(r, c.value).created[r.opener.value] == r.created[r.opener.value];
      }
    }
  }

  /**
   * The opener is kept as an object, not as a name: when a later
   * configuration reuses the opener's name without being an opener, the
   * opener agent is no longer the one registered under that name.
   */
  lemma OpenerMayBeReplacedByName()
    ensures var first := AgentConfig("Greeter", "sales", true, "greet", [], [], [], []);
      var second := AgentConfig("Greeter", "sales", false, "greet again", [], [], [], []);
      var r := Load([DirEntry("a.yaml", true, Some(first)), DirEntry("b.yaml", true, Some(second))], YamlSuffixes);
      r.opener == Some(0) && "Greeter" in r.agents && r.agents["Greeter"] == 1
  {
    var first := AgentConfig("Greeter", "sales", true, "greet", [], [], [], []);
    var second := AgentConfig("Greeter", "sales", false, "greet again", [], [], [], []);
    var entries := [DirEntry("a.yaml", true, Some(first)), DirEntry("b.yaml", true, Some(second))];
    LastDotAt("a.yaml", 1);
    LastDotAt("b.yaml", 1);
    assert Accepted(entries[0], YamlSuffixes) == Some(first);
    assert Accepted(entries[1], YamlSuffixes) == Some(second);
    assert entries[..1] == [DirEntry("a.yaml", true, Some(first))];
    assert entries[..1][..0] == [];
    var once := Register(EmptyRegistry, first);
    assert Load(entries[..1], YamlSuffixes) == once;
    assert Load(entries, YamlSuffixes) == Register(once, second);
  }

  // ---------------------------------------------------------------------
  // Handoffs
  // ---------------------------------------------------------------------

  /** Whether a handoff configuration is wired: its target is registered and its condition is non-empty. */
  predicate Wired(c: HandoffConfig, agents: map<string, nat>) {
    c.agentName in agents && c.condition != ""
  }

  /** The handoffs `__set_handoffs` appends for one agent's configurations, in configuration order. */
  function Edges(configs: seq<HandoffConfig>, agents: map<string, nat>): (es: seq<HandoffEdge>)
    ensures |es| <= |configs|
    decreases |configs|
  {
    if configs == [] then []
    else
      var last := configs[|configs| - 1];
      Edges(configs[..|configs| - 1], agents) +
        (if Wired(last, agents) then [HandoffEdge(agents[last.agentName], last.condition)] else [])
  }

  /** Edges keep configuration order: the edges of a concatenation are the concatenated edges. */
  lemma {:induction false} EdgesAppend(a: seq<HandoffConfig>, b: seq<HandoffConfig>, agents: map<string, nat>)
    ensures Edges(a + b, agents) == Edges(a, agents) + Edges(b, agents)
    decreases |b|
  {
    if b == [] {
      assert a + b == a;
    } else {
      assert (a + b)[..|a + b| - 1] == a + b[..|b| - 1];
      EdgesAppend(a, b[..|b| - 1], agents);
    }
  }

  /** Every edge comes from a wired configuration, and every wired configuration gives an edge. */
  lemma {:induction false} EdgesExactlyWired(configs: seq<HandoffConfig>, agents: map<string, nat>)
    ensures forall e <- Edges(configs, agents) ::
      exists c <- configs :: Wired(c, agents) && e == HandoffEdge(agents[c.agentName], c.condition)
    ensures forall c <- configs :: Wired(c, agents) ==> HandoffEdge(agents[c.agentName], c.condition) in Edges(configs, agents)
    decreases |configs|
  {
    if configs != [] {
      var prefix := configs[..|configs| - 1];
      EdgesExactlyWired(prefix, agents);
      assert configs == prefix + [configs[|configs| - 1]];
      forall c <- configs | Wired(c, agents)
        ensures HandoffEdge(agents[c.agentName], c.condition) in Edges(configs, agents)
      {
        if c !in prefix { assert c == configs[|configs| - 1]; }
      }
    }
  }

  /** The agents after wiring the handoffs of the names in `names`, one name after the other. */
  function WireAll(created: seq<Agent>, names: seq<string>, agents: map<string, nat>, configs: map<string, seq<HandoffConfig>>): (w: seq<Agent>)
    ensures |w| == |created|
    decreases |names|
  {
    if names == [] then created
    else
      var prior := WireAll(created, names[..|names| - 1], agents, configs);
      var n := names[|names| - 1];
      if n in agents && n in configs && agents[n] < |prior| then
        var h := agents[n];
        prior[h := prior[h].(handoffs := prior[h].handoffs + Edges(configs[n], agents))]
      else prior
  }

  /** Wiring only touches the handoff lists of the agents registered under the wired names. */
  lemma {:induction false} WireAllFrame(created: seq<Agent>, names: seq<string>, agents: map<string, nat>,
                                        configs: map<string, seq<HandoffConfig>>, h: nat)
    requires h < |created|
    requires forall n <- names :: n in agents ==> agents[n] != h
    ensures WireAll(created, names, agents, configs)[h] == created[h]
    decreases |names|
  {
    if names != [] {
      WireAllFrame(created, names[..|names| - 1], agents, configs, h);
    }
  }

  /** After wiring, a registered agent's handoffs are exactly the edges of its own configurations. */
  lemma {:induction false} WireAllEdges(created: seq<Agent>, names: seq<string>, agents: map<string, nat>,
                                        configs: map<string, seq<HandoffConfig>>, name: string)
    requires name in agents && name in configs && agents[name] < |created|
    requires name in names
    requires forall i, j :: 0 <= i < j < |names| ==> names[i] != names[j]
    requires forall n, m :: n in agents && m in agents && n != m ==> agents[n] != agents[m]
    ensures WireAll(created, names, agents, configs)[agents[name]].handoffs ==
      created[agents[name]].handoffs + Edges(configs[name], agents)
    decreases |names|
  {
    var prefix := names[..|names| - 1];
    var last := names[|names| - 1];
    if last == name {
      forall n <- prefix | n in agents ensures agents[n] != agents[name] {
        var i :| 0 <= i < |prefix| && prefix[i] == n;
        assert names[i] == n;
      }
      WireAllFrame(created, prefix, agents, configs, agents[name]);
    } else {
      assert name in prefix by {
        var i :| 0 <= i < |names| && names[i] == name;
        assert i < |names| - 1;
        assert prefix[i] == name;
      }
      WireAllEdges(created, prefix, agents, configs, name);
    }
  }

  // ---------------------------------------------------------------------
  // The manager
  // ---------------------------------------------------------------------

  /** `AgentManager`: the agent dictionaries, the opener, and the session handles. */
  class AgentManager {
    var agents: map<string, nat>
    var created: seq<Agent>
    var openerAgent: Option<nat>
    var agentHandoffs: map<string, seq<HandoffConfig>>
    var handoffOrder: seq<string>
    var session: Option<nat>
    var sessionContext: Option<nat>
    var receiveTask: Option<nat>
    const log: CallLog
    /** The suffixes the loader accepts: `AsWrittenSuffixes` in the code as written, `YamlSuffixes` once corrected. */
    const suffixes: seq<string>

    /** The registry the dictionaries currently hold. */
    function Current(): Registry
      reads this
    {
      Registry(agents, created, openerAgent, agentHandoffs, handoffOrder)
    }

    /**
     * Loads the listing, accepting the given suffixes, wires the handoffs,
     * and leaves the session handles unset.
     */
    constructor(entries: seq<DirEntry>, suffixes: seq<string>, log: CallLog)
      ensures this.log == log && this.suffixes == suffixes
      ensures agents == Load(entries, suffixes).agents
      ensures openerAgent == Load(entries, suffixes).opener
      ensures agentHandoffs == Load(entries, suffixes).handoffConfigs
      ensures var r := Load(entries, suffixes); created == WireAll(r.created, r.order, r.agents, r.handoffConfigs)
      ensures session.None? && sessionContext.None? && receiveTask.None?
    {
      agents, created, openerAgent, agentHandoffs, handoffOrder := map[], [], None, map[], [];
      session, sessionContext, receiveTask := None, None, None;
      this.log := log;
      this.suffixes := suffixes;
      new;
      LoadAgents(entries);
      SetHandoffs();
      session, sessionContext, receiveTask := None, None, None;
    }

    /** `__load_agents`: one pass over the listing, skipping what does not qualify. */
    method LoadAgents(entries: seq<DirEntry>)
      requires Current() == EmptyRegistry
      modifies this
      ensures Current() == Load(entries, suffixes)
      ensures session == old(session) && sessionContext == old(sessionContext) && receiveTask == old(receiveTask)
    {
      var k := 0;
      while k < |entries|
        invariant 0 <= k <= |entries|
        invariant Current() == Load(entries[..k], suffixes)
        invariant session == old(session) && sessionContext == old(sessionContext) && receiveTask == old(receiveTask)
      {
        LoadStep(entries, k, suffixes);
        LoadEntry(entries[k]);
        k := k + 1;
      }
      assert entries[..k] == entries;
    }

    /** One iteration of `__load_agents`: skip the entry, or register its configuration. */
    method LoadEntry(entry: DirEntry)
      modifies this
      ensures Current() == match Accepted(entry, suffixes)
        case None => old(Current())
        case Some(c) => Register(old(Current()), c)
      ensures session == old(session) && sessionContext == old(sessionContext) && receiveTask == old(receiveTask)
    {
      if !entry.isFile {
        // the source logs a warning and skips the entry
      } else if Suffix(entry.name) !in suffixes {
        // the source logs a warning and skips the entry
      } else if entry.config.None? {
        // the source logs the load error and skips the entry
      } else {
        RegisterConfig(entry.config.value);
      }
    }

    /** The registration step of `__load_agents` for one loaded configuration. */
    method RegisterConfig(config: AgentConfig)
      modifies this
      ensures Current() == Register(old(Current()), config)
      ensures session == old(session) && sessionContext == old(sessionContext) && receiveTask == old(receiveTask)
    {
      var agent := |created|;
      created := created + [Agent(config.name, config.instructions, [])];
      agents := agents[config.name := agent];
      if config.opener {
        openerAgent := Some(agent);
      }
      if config.name !in agentHandoffs {
        handoffOrder := handoffOrder + [config.name];
      }
      agentHandoffs := agentHandoffs[config.name := config.handoffs];
    }

    /** `__set_handoffs`: for each agent, append a handoff per wired configuration, in order. */
    method SetHandoffs()
      modifies this
      ensures created == WireAll(old(created), handoffOrder, agents, agentHandoffs)
      ensures agents == old(agents) && openerAgent == old(openerAgent)
      ensures agentHandoffs == old(agentHandoffs) && handoffOrder == old(handoffOrder)
      ensures session == old(session) && sessionContext == old(sessionContext) && receiveTask == old(receiveTask)
    {
      var i := 0;
      while i < |handoffOrder|
        invariant 0 <= i <= |handoffOrder|
        invariant |created| == |old(created)|
        invariant created == WireAll(old(created), handoffOrder[..i], agents, agentHandoffs)
        invariant agents == old(agents) && openerAgent == old(openerAgent)
        invariant agentHandoffs == old(agentHandoffs) && handoffOrder == old(handoffOrder)
        invariant session == old(session) && sessionContext == old(sessionContext) && receiveTask == old(receiveTask)
      {
        var name := handoffOrder[i];
        assert handoffOrder[..i + 1][..i] == handoffOrder[..i];
        if name in agents && name in agentHandoffs && agents[name] < |created| {
          var agent := agents[name];
          var configs := agentHandoffs[name];
          ghost var base := created[agent].handoffs;
          var j := 0;
          while j < |configs|
            invariant i < |handoffOrder| && handoffOrder == old(handoffOrder)
            invariant 0 <= j <= |configs|
            invariant |created| == |old(created)|
            invariant agent < |created|
            invariant created == WireAll(old(created), handoffOrder[..i], agents, agentHandoffs)[agent := created[agent]]
            invariant created[agent] == WireAll(old(created), handoffOrder[..i], agents, agentHandoffs)[agent].(handoffs := base + Edges(configs[..j], agents))
            invariant agents == old(agents) && openerAgent == old(openerAgent)
            invariant agentHandoffs == old(agentHandoffs) && handoffOrder == old(handoffOrder)
            invariant session == old(session) && sessionContext == old(sessionContext) && receiveTask == old(receiveTask)
          {
            var config := configs[j];
            assert configs[..j + 1][..j] == configs[..j];
            if config.agentName in agents && config.condition != "" {
              created := created[agent := created[agent].(handoffs := created[agent].handoffs + [HandoffEdge(agents[config.agentName], config.condition)])];
            } else {
              // a warning is logged and the configuration skipped
            }
            j := j + 1;
          }
          assert configs[..j] == configs;
        }
        i := i + 1;
      }
      assert handoffOrder[..i] == handoffOrder;
    }

    /** Opens the session with the opener as starting agent; like the communication handler, one task is created. */
    method InitRealtimeSession(open: OpenOutcome) returns (ending: Ending)
      modifies this, log
      ensures log.effects == old(log.effects) + CommunicationHandler.InitEffects(open)
      ensures ending == if open.Opens? then Returned else Raised(OpenFailed)
      ensures open.Opens? ==>
        session == Some(open.session) && sessionContext == Some(open.context) && receiveTask == Some(open.task)
      ensures !open.Opens? ==>
        session == old(session) && sessionContext == old(sessionContext) && receiveTask == old(receiveTask)
      ensures Current() == old(Current())
    {
      if open.RunFails? {
        return Raised(OpenFailed);
      }
      log.Record(RunSession);
      if open.EnterFails? {
        return Raised(OpenFailed);
      }
      log.Record(EnterSession);
      log.Record(CreateTask);
      session, sessionContext, receiveTask := Some(open.session), Some(open.context), Some(open.task);
      ending := Returned;
    }

    /** `send_audio`: the bytes go to the session unchanged, with `commit=False`; without a session it raises. */
    method SendAudio(audio: seq<Base64.byte>) returns (ending: Ending)
      modifies log
      ensures session.Some? ==> log.effects == old(log.effects) + [Effect.SendAudio(audio, false)] && ending == Returned
      ensures session.None? ==> log.effects == old(log.effects) && ending == Raised(NoSession)
    {
      if session.None? {
        return Raised(NoSession);
      }
      log.Record(Effect.SendAudio(audio, false));
      ending := Returned;
    }
  }

  /**
   * After construction, every registered agent's handoffs are exactly the
   * edges of its own (last) configuration: targets registered, conditions
   * non-empty, in configuration order.
   */
  lemma ConstructedHandoffs(entries: seq<DirEntry>, suffixes: seq<string>, name: string)
    requires name in Load(entries, suffixes).agents
    ensures var r := Load(entries, suffixes);
      var wired := WireAll(r.created, r.order, r.agents, r.handoffConfigs);
      && r.agents[name] < |wired|
      && LastNamed(entries, suffixes, name).Some?
      && wired[r.agents[name]].handoffs == Edges(LastNamed(entries, suffixes, name).value.handoffs, r.agents)
  {
    var r := Load(entries, suffixes);
    LoadWellFormed(entries, suffixes);
    LoadLastWins(entries, suffixes, name);
    WireAllEdges(r.created, r.order, r.agents, r.handoffConfigs, name);
  }
}
