/** `CrewPreparation`: validates a crew configuration, materialises its agents
    and tasks through external constructors, assembles the crew and runs it.
    Each stage reports success as a boolean and the pipeline stops at the first
    failure. The constructors, the crew library and the environment checks are
    parameters; an exception they raise is a `Failure` carrying its message. */
module CrewPreparation {
  import opened Wrappers
  import opened Values
  import opened OrderedMaps
  import opened CrewConfig
  import opened CrewOutput
  import opened CrewAssembly

  /** `create_agent(agent_key, agent_config, tool_service, tool_factory)`; `None` is a refusal. */
  type AgentConstructor<!ToolService, !ToolFactory, Agent> =
    (string, AgentSpec, ToolService, ToolFactory) -> Result<Option<Agent>>

  /** `create_task(task_key, task_config, agent)`. */
  type TaskConstructor<!Agent, Task> = (string, TaskSpec, Agent) -> Result<Task>

  datatype AgentCall = AgentCall(key: string, spec: AgentSpec)
  datatype TaskCall<Agent> = TaskCall(key: string, spec: TaskSpec, agent: Agent)

  // Operation labels handed to the shared error handler.
  const AgentsFailed := "Error creating agents"
  const TasksFailed := "Error creating tasks"
  const CrewFailed := "Error creating crew"
  const ExecutionFailed := "Error executing crew"

  const CrewNotPrepared := "Crew not prepared"
  const DataMayBeMissing := "Crew execution completed but data may be missing"

  function NoContextResolved(taskId: string): string {
    "No context tasks could be resolved for task " + taskId
  }

  /** A built task with the context the pipeline sets on it: left unset when
      nothing resolved. */
  function WithContext<T>(handle: T, resolved: seq<T>): MaterializedTask<T> {
    MaterializedTask(handle, if resolved == [] then None else Some(resolved))
  }

  /** The warning for a spec that declares references of which none resolves. */
  function ContextWarning<T>(spec: TaskSpec, resolved: seq<T>): seq<LogEntry> {
    if ContextRefs(spec.context) != [] && resolved == [] then [Warning(NoContextResolved(spec.id))] else []
  }

  /** How many of the entries were written by the shared error handler. */
  function TracedCount(log: seq<LogEntry>): nat {
    if log == [] then 0 else (if log[0].Traced? then 1 else 0) + TracedCount(log[1..])
  }

  /** No entry is counted exactly when none was written by the handler. */
  lemma {:induction false} TracedCountZero(log: seq<LogEntry>)
    ensures TracedCount(log) == 0 <==> Untraced(log)
  {
    if log != [] {
      TracedCountZero(log[1..]);
      assert forall i :: 1 <= i < |log| ==> log[i] == log[1..][i - 1];
    }
  }

  lemma {:induction false} TracedCountAppend(a: seq<LogEntry>, b: seq<LogEntry>)
    ensures TracedCount(a + b) == TracedCount(a) + TracedCount(b)
    decreases |a|
  {
    if a == [] {
      assert a + b == b;
    } else {
      assert (a + b)[0] == a[0];
      assert (a + b)[1..] == a[1..] + b;
      TracedCountAppend(a[1..], b);
    }
  }

  lemma AppendAssociative(a: seq<LogEntry>, b: seq<LogEntry>, c: seq<LogEntry>)
    ensures (a + b) + c == a + (b + c)
  {
    assert |(a + b) + c| == |a + (b + c)|;
    forall i | 0 <= i < |a + b + c|
      ensures ((a + b) + c)[i] == (a + (b + c))[i]
    {
    }
  }

  class CrewPreparation<ToolService, ToolFactory, Agent, Task(==), Crew, Llm> {
    const config: CrewConfiguration
    const toolService: ToolService
    const toolFactory: ToolFactory
    var agents: OrderedMap<Agent>
    var tasks: seq<MaterializedTask<Task>>
    var crew: Option<Crew>
    /** Everything logged so far, and the calls made to the two constructors. */
    ghost var log: seq<LogEntry>
    ghost var agentCalls: seq<AgentCall>
    ghost var taskCalls: seq<TaskCall<Agent>>

    ghost predicate Valid()
      reads this
    {
      agents.Valid()
    }

    constructor (config: CrewConfiguration, toolService: ToolService, toolFactory: ToolFactory)
      ensures Valid()
      ensures this.config == config && this.toolService == toolService && this.toolFactory == toolFactory
      ensures agents == Empty() && tasks == [] && crew == None
      ensures log == [] && agentCalls == [] && taskCalls == []
    {
      this.config := config;
      this.toolService := toolService;
      this.toolFactory := toolFactory;
      agents := Empty();
      tasks := [];
      crew := None;
      log := [];
      agentCalls := [];
      taskCalls := [];
    }

    function AgentSpecs(): seq<AgentSpec> {
      config.agents.GetOr([])
    }

    function TaskSpecs(): seq<TaskSpec> {
      config.tasks.GetOr([])
    }

    // ---------------------------------------------------------------- agents

    function AgentCallAt(positionalKey: nat -> string, i: nat): AgentCall
      requires i < |AgentSpecs()|
    {
      AgentCall(AgentKey(AgentSpecs()[i], i, positionalKey), AgentSpecs()[i])
    }

    function AgentResult(createAgent: AgentConstructor<ToolService, ToolFactory, Agent>,
                         positionalKey: nat -> string, i: nat): Result<Option<Agent>>
      requires i < |AgentSpecs()|
    {
      var call := AgentCallAt(positionalKey, i);
      createAgent(call.key, call.spec, toolService, toolFactory)
    }

    predicate AgentBuilt(createAgent: AgentConstructor<ToolService, ToolFactory, Agent>,
                         positionalKey: nat -> string, i: nat)
      requires i < |AgentSpecs()|
    {
      var r := AgentResult(createAgent, positionalKey, i);
      r.Success? && r.value.Some?
    }

    /** The first `k` specs each yield an agent. */
    predicate AgentsBuiltUpTo(createAgent: AgentConstructor<ToolService, ToolFactory, Agent>,
                              positionalKey: nat -> string, k: nat)
      requires k <= |AgentSpecs()|
    {
      k == 0 || (AgentsBuiltUpTo(createAgent, positionalKey, k - 1) && AgentBuilt(createAgent, positionalKey, k - 1))
    }

    lemma {:induction false} AgentsBuiltUpToMeans(createAgent: AgentConstructor<ToolService, ToolFactory, Agent>,
                                                 positionalKey: nat -> string, k: nat)
      requires k <= |AgentSpecs()|
      ensures AgentsBuiltUpTo(createAgent, positionalKey, k) <==>
              forall i :: 0 <= i < k ==> AgentBuilt(createAgent, positionalKey, i)
    {
      if k > 0 {
        AgentsBuiltUpToMeans(createAgent, positionalKey, k - 1);
      }
    }

    /** The agents stage succeeds: every spec yields an agent. */
    predicate AgentsBuilt(createAgent: AgentConstructor<ToolService, ToolFactory, Agent>,
                          positionalKey: nat -> string)
    {
      forall i :: 0 <= i < |AgentSpecs()| ==> AgentBuilt(createAgent, positionalKey, i)
    }

    /** The (key, agent) pairs of those of the first `k` specs that yield an
        agent, in declaration order. */
    function AgentEntries(createAgent: AgentConstructor<ToolService, ToolFactory, Agent>,
                          positionalKey: nat -> string, k: nat): (e: seq<(string, Agent)>)
      requires k <= |AgentSpecs()|
      ensures |e| <= k
    {
      if k == 0 then []
      else
        var r := AgentResult(createAgent, positionalKey, k - 1);
        AgentEntries(createAgent, positionalKey, k - 1) +
        if r.Success? && r.value.Some? then [(AgentCallAt(positionalKey, k - 1).key, r.value.value)] else []
    }

    function AgentCallsUpTo(positionalKey: nat -> string, k: nat): (calls: seq<AgentCall>)
      requires k <= |AgentSpecs()|
      ensures |calls| == k
    {
      if k == 0 then [] else AgentCallsUpTo(positionalKey, k - 1) + [AgentCallAt(positionalKey, k - 1)]
    }

    /** Call `i` passes spec `i` and its key. */
    lemma {:induction false} AgentCallsAt(positionalKey: nat -> string, k: nat, i: nat)
      requires i < k <= |AgentSpecs()|
      ensures AgentCallsUpTo(positionalKey, k)[i] == AgentCallAt(positionalKey, i)
    {
      if i < k - 1 {
        AgentCallsAt(positionalKey, k - 1, i);
      }
    }

    /** When the first `k` specs all yield agents, entry `i` is spec `i`'s key and agent. */
    lemma {:induction false} AgentEntriesAt(createAgent: AgentConstructor<ToolService, ToolFactory, Agent>,
                                            positionalKey: nat -> string, k: nat, i: nat)
      requires i < k <= |AgentSpecs()|
      requires AgentsBuiltUpTo(createAgent, positionalKey, k)
      ensures |AgentEntries(createAgent, positionalKey, k)| == k
      ensures AgentBuilt(createAgent, positionalKey, i)
      ensures AgentEntries(createAgent, positionalKey, k)[i] ==
                (AgentCallAt(positionalKey, i).key, AgentResult(createAgent, positionalKey, i).value.value)
    {
      if k - 1 > 0 {
        AgentEntriesLength(createAgent, positionalKey, k - 1);
      }
      if i < k - 1 {
        AgentEntriesAt(createAgent, positionalKey, k - 1, i);
      }
    }

    lemma {:induction false} AgentEntriesLength(createAgent: AgentConstructor<ToolService, ToolFactory, Agent>,
                                                positionalKey: nat -> string, k: nat)
      requires k <= |AgentSpecs()|
      requires AgentsBuiltUpTo(createAgent, positionalKey, k)
      ensures |AgentEntries(createAgent, positionalKey, k)| == k
    {
      if k > 0 {
        AgentEntriesLength(createAgent, positionalKey, k - 1);
      }
    }

    /** After a successful agents stage started from `start`, each spec's agent is
        stored under its key, unless a later spec has the same key. */
    lemma StoredUnderKey(createAgent: AgentConstructor<ToolService, ToolFactory, Agent>,
                         positionalKey: nat -> string, start: OrderedMap<Agent>, i: nat)
      requires start.Valid()
      requires AgentsBuilt(createAgent, positionalKey) && i < |AgentSpecs()|
      requires forall j :: i < j < |AgentSpecs()| ==> AgentCallAt(positionalKey, j).key != AgentCallAt(positionalKey, i).key
      ensures var stored := PutAll(start, AgentEntries(createAgent, positionalKey, |AgentSpecs()|));
              && AgentBuilt(createAgent, positionalKey, i)
              && AgentCallAt(positionalKey, i).key in stored.values
              && stored.values[AgentCallAt(positionalKey, i).key] == AgentResult(createAgent, positionalKey, i).value.value
    {
      var n := |AgentSpecs()|;
      AgentsBuiltUpToMeans(createAgent, positionalKey, n);
      var entries := AgentEntries(createAgent, positionalKey, n);
      AgentEntriesAt(createAgent, positionalKey, n, i);
      forall j | i < j < |entries| ensures entries[j].0 != entries[i].0 {
        AgentEntriesAt(createAgent, positionalKey, n, j);
      }
      PutAllLast(start, entries, i);
    }

    /** What the agents stage logs when it stops at spec `i`. */
    function AgentFailureLog(createAgent: AgentConstructor<ToolService, ToolFactory, Agent>,
                             positionalKey: nat -> string, i: nat): (l: seq<LogEntry>)
      requires i < |AgentSpecs()|
      ensures TracedCount(l) == if AgentResult(createAgent, positionalKey, i).Failure? then 1 else 0
    {
      var r := AgentResult(createAgent, positionalKey, i);
      if r.Failure? then [HandleCrewError(AgentsFailed, r.error)] else []
    }

    /** The loop of `_create_agents`: builds each agent spec in turn and stores
        it under its key in `start`, stopping at the first spec whose
        constructor refuses (`None`) or raises (`raised`). `built` counts the
        agents that were built. */
    method BuildAgents(createAgent: AgentConstructor<ToolService, ToolFactory, Agent>,
                       positionalKey: nat -> string, start: OrderedMap<Agent>)
      returns (ok: bool, built: nat, result: OrderedMap<Agent>, raised: Option<string>, ghost calls: seq<AgentCall>)
      ensures built <= |AgentSpecs()|
      ensures AgentsBuiltUpTo(createAgent, positionalKey, built)
      ensures ok <==> built == |AgentSpecs()|
      ensures !ok ==> !AgentBuilt(createAgent, positionalKey, built)
      ensures result == PutAll(start, AgentEntries(createAgent, positionalKey, built))
      ensures calls == AgentCallsUpTo(positionalKey, if ok then built else built + 1)
      ensures raised.Some? <==> !ok && AgentResult(createAgent, positionalKey, built).Failure?
      ensures raised.Some? ==> raised.value == AgentResult(createAgent, positionalKey, built).error
    {
      result := start;
      calls := [];
      built := 0;
      while built < |AgentSpecs()|
        invariant built <= |AgentSpecs()|
        invariant AgentsBuiltUpTo(createAgent, positionalKey, built)
        invariant result == PutAll(start, AgentEntries(createAgent, positionalKey, built))
        invariant calls == AgentCallsUpTo(positionalKey, built)
      {
        var call := AgentCallAt(positionalKey, built);
        var made := AgentResult(createAgent, positionalKey, built);
        calls := calls + [call];
        if made.Failure? {
          return false, built, result, Some(made.error), calls;
        } else if made.value.None? {
          return false, built, result, None, calls;
        }
        PutAllSnoc(start, AgentEntries(createAgent, positionalKey, built), call.key, made.value.value);
        result := result.Put(call.key, made.value.value);
        built := built + 1;
      }
      return true, built, result, None, calls;
    }

    /** `_create_agents`: the agents built from the configuration are stored
        under their keys; a refusal or an exception stops the stage with
        `false`, and only an exception is logged. */
    method CreateAgents(createAgent: AgentConstructor<ToolService, ToolFactory, Agent>,
                        positionalKey: nat -> string) returns (ok: bool, ghost built: nat)
      requires Valid()
      modifies this
      ensures Valid()
      ensures tasks == old(tasks) && crew == old(crew) && taskCalls == old(taskCalls)
      ensures built <= |AgentSpecs()|
      ensures forall i :: 0 <= i < built ==> AgentBuilt(createAgent, positionalKey, i)
      ensures ok <==> built == |AgentSpecs()|
      ensures ok <==> AgentsBuilt(createAgent, positionalKey)
      ensures !ok ==> !AgentBuilt(createAgent, positionalKey, built)
      ensures agents == PutAll(old(agents), AgentEntries(createAgent, positionalKey, built))
      ensures agentCalls == old(agentCalls) + AgentCallsUpTo(positionalKey, if ok then built else built + 1)
      ensures ok ==> log == old(log)
      ensures !ok ==> log == old(log) + AgentFailureLog(createAgent, positionalKey, built)
    {
      var count, result, raised;
      ghost var calls;
      ok, count, result, raised, calls := BuildAgents(createAgent, positionalKey, agents);
      AgentsBuiltUpToMeans(createAgent, positionalKey, count);
      PutAllValid(agents, AgentEntries(createAgent, positionalKey, count));
      agents := result;
      agentCalls := agentCalls + calls;
      if raised.Some? {
        log := log + [HandleCrewError(AgentsFailed, raised.value)];
      }
      built := count;
    }

    // ----------------------------------------------------------------- tasks

    /** Some agent is available to bind tasks to: the map's first key. */
    static predicate Bindable(agents: OrderedMap<Agent>) {
      agents.keys != [] && agents.keys[0] in agents.values
    }

    /** The agent a task spec is bound to: the agent under its declared key,
        else one (the first) of the available agents. */
    static function TaskAgent(agents: OrderedMap<Agent>, spec: TaskSpec): (a: Agent)
      requires Bindable(agents)
      ensures spec.agent.Some? && spec.agent.value in agents.values ==> a == agents.values[spec.agent.value]
    {
      if spec.agent.Some? && spec.agent.value in agents.values then agents.values[spec.agent.value]
      else agents.values[agents.keys[0]]
    }

    /** The agent a task is bound to is always one of the crew's agents. */
    static lemma TaskAgentAvailable(agents: OrderedMap<Agent>, spec: TaskSpec)
      requires Bindable(agents)
      ensures exists k :: k in agents.values && agents.values[k] == TaskAgent(agents, spec)
    {
      if !(spec.agent.Some? && spec.agent.value in agents.values) {
        assert agents.keys[0] in agents.values;
      }
    }

    function TaskCallAt(agents: OrderedMap<Agent>, i: nat): TaskCall<Agent>
      requires Bindable(agents) && i < |TaskSpecs()|
    {
      var spec := TaskSpecs()[i];
      TaskCall(spec.id, CoerceAsync(spec, i, |TaskSpecs()|), TaskAgent(agents, spec))
    }

    function TaskResult(createTask: TaskConstructor<Agent, Task>, agents: OrderedMap<Agent>, i: nat): Result<Task>
      requires Bindable(agents) && i < |TaskSpecs()|
    {
      var call := TaskCallAt(agents, i);
      createTask(call.key, call.spec, call.agent)
    }

    predicate TaskBuilt(createTask: TaskConstructor<Agent, Task>, agents: OrderedMap<Agent>, i: nat)
      requires Bindable(agents) && i < |TaskSpecs()|
    {
      TaskResult(createTask, agents, i).Success?
    }

    /** The first `k` specs each yield a task. */
    predicate TasksBuiltUpTo(createTask: TaskConstructor<Agent, Task>, agents: OrderedMap<Agent>, k: nat)
      requires Bindable(agents) && k <= |TaskSpecs()|
    {
      k == 0 || (TasksBuiltUpTo(createTask, agents, k - 1) && TaskBuilt(createTask, agents, k - 1))
    }

    lemma {:induction false} TasksBuiltUpToMeans(createTask: TaskConstructor<Agent, Task>,
                                                agents: OrderedMap<Agent>, k: nat)
      requires Bindable(agents) && k <= |TaskSpecs()|
      ensures TasksBuiltUpTo(createTask, agents, k) <==> forall i :: 0 <= i < k ==> TaskBuilt(createTask, agents, i)
    {
      if k > 0 {
        TasksBuiltUpToMeans(createTask, agents, k - 1);
      }
    }

    /** The tasks stage succeeds: some agent exists and every spec yields a task. */
    predicate TasksBuilt(createTask: TaskConstructor<Agent, Task>, agents: OrderedMap<Agent>)
    {
      Bindable(agents) && forall i :: 0 <= i < |TaskSpecs()| ==> TaskBuilt(createTask, agents, i)
    }

    /** Task id to constructed task, for the first `k` specs; a later task with
        the same id replaces an earlier one. */
    function TaskLookup(createTask: TaskConstructor<Agent, Task>, agents: OrderedMap<Agent>, k: nat): map<string, Task>
      requires Bindable(agents) && k <= |TaskSpecs()|
    {
      if k == 0 then map[]
      else
        var r := TaskResult(createTask, agents, k - 1);
        var earlier := TaskLookup(createTask, agents, k - 1);
        if r.Success? then earlier[TaskSpecs()[k - 1].id := r.value] else earlier
    }

    /** The context references of spec `i` resolved against the tasks before it. */
    function ContextAt(createTask: TaskConstructor<Agent, Task>, agents: OrderedMap<Agent>, i: nat): seq<Task>
      requires Bindable(agents) && i < |TaskSpecs()|
    {
      ResolveContext(ContextRefs(TaskSpecs()[i].context), TaskLookup(createTask, agents, i))
    }

    function MaterializedAt(createTask: TaskConstructor<Agent, Task>, agents: OrderedMap<Agent>, i: nat)
      : MaterializedTask<Task>
      requires Bindable(agents) && i < |TaskSpecs()|
      requires TaskBuilt(createTask, agents, i)
    {
      WithContext(TaskResult(createTask, agents, i).value, ContextAt(createTask, agents, i))
    }

    function MaterializedUpTo(createTask: TaskConstructor<Agent, Task>, agents: OrderedMap<Agent>, k: nat)
      : (ts: seq<MaterializedTask<Task>>)
      requires Bindable(agents) && k <= |TaskSpecs()|
      ensures |ts| <= k
    {
      if k == 0 then []
      else
        MaterializedUpTo(createTask, agents, k - 1) +
        if TaskBuilt(createTask, agents, k - 1) then [MaterializedAt(createTask, agents, k - 1)] else []
    }

    function TaskCallsUpTo(agents: OrderedMap<Agent>, k: nat): (calls: seq<TaskCall<Agent>>)
      requires Bindable(agents) && k <= |TaskSpecs()|
      ensures |calls| == k
    {
      if k == 0 then [] else TaskCallsUpTo(agents, k - 1) + [TaskCallAt(agents, k - 1)]
    }

    /** Call `i` passes spec `i`'s id, its coerced configuration and its agent. */
    lemma {:induction false} TaskCallsAt(agents: OrderedMap<Agent>, k: nat, i: nat)
      requires Bindable(agents) && i < k <= |TaskSpecs()|
      ensures TaskCallsUpTo(agents, k)[i] == TaskCallAt(agents, i)
    {
      if i < k - 1 {
        TaskCallsAt(agents, k - 1, i);
      }
    }

    lemma {:induction false} MaterializedLength(createTask: TaskConstructor<Agent, Task>, agents: OrderedMap<Agent>, k: nat)
      requires Bindable(agents) && k <= |TaskSpecs()|
      requires TasksBuiltUpTo(createTask, agents, k)
      ensures |MaterializedUpTo(createTask, agents, k)| == k
    {
      if k > 0 {
        MaterializedLength(createTask, agents, k - 1);
      }
    }

    /** When the first `k` specs all yield tasks, task `i` is the result of call `i`. */
    lemma {:induction false} MaterializedIndex(createTask: TaskConstructor<Agent, Task>, agents: OrderedMap<Agent>,
                                               k: nat, i: nat)
      requires Bindable(agents) && i < k <= |TaskSpecs()|
      requires TasksBuiltUpTo(createTask, agents, k)
      ensures |MaterializedUpTo(createTask, agents, k)| == k
      ensures TaskBuilt(createTask, agents, i)
      ensures MaterializedUpTo(createTask, agents, k)[i] == MaterializedAt(createTask, agents, i)
    {
      if k - 1 > 0 {
        MaterializedLength(createTask, agents, k - 1);
      }
      if i < k - 1 {
        MaterializedIndex(createTask, agents, k - 1, i);
      }
    }

    /** A built task can be referred to by its id from every later spec, until a
        later task with the same id replaces it. */
    lemma {:induction false} TaskLookupHas(createTask: TaskConstructor<Agent, Task>, agents: OrderedMap<Agent>,
                                           k: nat, i: nat)
      requires Bindable(agents) && i < k <= |TaskSpecs()|
      requires TaskBuilt(createTask, agents, i)
      requires forall j :: i < j < k ==> TaskSpecs()[j].id != TaskSpecs()[i].id
      ensures TaskSpecs()[i].id in TaskLookup(createTask, agents, k)
      ensures TaskLookup(createTask, agents, k)[TaskSpecs()[i].id] == TaskResult(createTask, agents, i).value
    {
      if i < k - 1 {
        TaskLookupHas(createTask, agents, k - 1, i);
      }
    }

    /** Only earlier tasks that were built can be referred to. */
    lemma {:induction false} TaskLookupFrom(createTask: TaskConstructor<Agent, Task>, agents: OrderedMap<Agent>,
                                            k: nat, id: string)
      requires Bindable(agents) && k <= |TaskSpecs()|
      requires id in TaskLookup(createTask, agents, k)
      ensures exists i :: 0 <= i < k && TaskSpecs()[i].id == id && TaskBuilt(createTask, agents, i) &&
                          TaskLookup(createTask, agents, k)[id] == TaskResult(createTask, agents, i).value
    {
      var r := TaskResult(createTask, agents, k - 1);
      if r.Success? && TaskSpecs()[k - 1].id == id {
        assert TaskBuilt(createTask, agents, k - 1);
      } else {
        TaskLookupFrom(createTask, agents, k - 1, id);
        var i :| 0 <= i < k - 1 && TaskSpecs()[i].id == id && TaskBuilt(createTask, agents, i) &&
                 TaskLookup(createTask, agents, k - 1)[id] == TaskResult(createTask, agents, i).value;
        assert TaskLookup(createTask, agents, k)[id] == TaskLookup(createTask, agents, k - 1)[id];
      }
    }

    /** A task whose references all name earlier built tasks gets exactly those
        tasks as its context, in reference order. */
    lemma ContextOfEarlierTasks(createTask: TaskConstructor<Agent, Task>, agents: OrderedMap<Agent>, i: nat)
      requires Bindable(agents) && i < |TaskSpecs()| && TaskBuilt(createTask, agents, i)
      requires ContextRefs(TaskSpecs()[i].context) != []
      requires forall r :: 0 <= r < |ContextRefs(TaskSpecs()[i].context)| ==>
                 ContextRefs(TaskSpecs()[i].context)[r] in TaskLookup(createTask, agents, i)
      ensures var refs := ContextRefs(TaskSpecs()[i].context);
              var context := MaterializedAt(createTask, agents, i).context;
              && context.Some? && |context.value| == |refs|
              && forall r :: 0 <= r < |refs| ==> context.value[r] == TaskLookup(createTask, agents, i)[refs[r]]
      ensures ContextWarningAt(createTask, agents, i) == []
    {
      ResolveContextAll(ContextRefs(TaskSpecs()[i].context), TaskLookup(createTask, agents, i));
    }

    /** A task that declares references of which none names an earlier built
        task has no context and gets the warning. */
    lemma ContextUnresolved(createTask: TaskConstructor<Agent, Task>, agents: OrderedMap<Agent>, i: nat)
      requires Bindable(agents) && i < |TaskSpecs()| && TaskBuilt(createTask, agents, i)
      requires ContextRefs(TaskSpecs()[i].context) != []
      requires forall r :: 0 <= r < |ContextRefs(TaskSpecs()[i].context)| ==>
                 ContextRefs(TaskSpecs()[i].context)[r] !in TaskLookup(createTask, agents, i)
      ensures MaterializedAt(createTask, agents, i).context.None?
      ensures ContextWarningAt(createTask, agents, i) == [Warning(NoContextResolved(TaskSpecs()[i].id))]
    {
      ResolveContextEmpty(ContextRefs(TaskSpecs()[i].context), TaskLookup(createTask, agents, i));
    }

    /** The warning of spec `i`: given when it declares references and none resolves. */
    function ContextWarningAt(createTask: TaskConstructor<Agent, Task>, agents: OrderedMap<Agent>, i: nat)
      : seq<LogEntry>
      requires Bindable(agents) && i < |TaskSpecs()|
    {
      ContextWarning(TaskSpecs()[i], ContextAt(createTask, agents, i))
    }

    function ContextWarnings(createTask: TaskConstructor<Agent, Task>, agents: OrderedMap<Agent>, k: nat)
      : (w: seq<LogEntry>)
      requires Bindable(agents) && k <= |TaskSpecs()|
      ensures forall j :: 0 <= j < |w| ==> w[j].Warning?
    {
      if k == 0 then []
      else
        ContextWarnings(createTask, agents, k - 1) +
        if TaskBuilt(createTask, agents, k - 1) then ContextWarningAt(createTask, agents, k - 1) else []
    }

    /** The context warnings are never written by the error handler. */
    lemma ContextWarningsUntraced(createTask: TaskConstructor<Agent, Task>, agents: OrderedMap<Agent>, k: nat)
      requires Bindable(agents) && k <= |TaskSpecs()|
      ensures TracedCount(ContextWarnings(createTask, agents, k)) == 0
    {
      TracedCountZero(ContextWarnings(createTask, agents, k));
    }

    /** What the tasks stage logs when it stops at spec `i`. */
    function TaskFailureLog(createTask: TaskConstructor<Agent, Task>, agents: OrderedMap<Agent>, i: nat)
      : (l: seq<LogEntry>)
      requires Bindable(agents) && i < |TaskSpecs()|
      requires !TaskBuilt(createTask, agents, i)
    {
      ContextWarnings(createTask, agents, i) + [HandleCrewError(TasksFailed, TaskResult(createTask, agents, i).error)]
    }

    /** A failing tasks stage writes through the handler exactly once. */
    lemma TaskFailureLogTraced(createTask: TaskConstructor<Agent, Task>, agents: OrderedMap<Agent>, i: nat)
      requires Bindable(agents) && i < |TaskSpecs()|
      requires !TaskBuilt(createTask, agents, i)
      ensures TracedCount(TaskFailureLog(createTask, agents, i)) == 1
    {
      ContextWarningsUntraced(createTask, agents, i);
      TracedCountAppend(ContextWarnings(createTask, agents, i),
                        [HandleCrewError(TasksFailed, TaskResult(createTask, agents, i).error)]);
    }

    /** The loop of `_create_tasks`: builds each task spec in declaration
        order, bound to its agent (or the fallback) and with `async_execution`
        cleared on all but the last, then points the new task's context at the
        earlier tasks its references name. It stops at the first constructor
        that raises (`raised`); `built` counts the tasks that were built. */
    method BuildTasks(createTask: TaskConstructor<Agent, Task>, agents: OrderedMap<Agent>)
      returns (ok: bool, built: nat, made: seq<MaterializedTask<Task>>, raised: Option<string>,
               ghost warnings: seq<LogEntry>, ghost calls: seq<TaskCall<Agent>>)
      requires Bindable(agents)
      ensures built <= |TaskSpecs()|
      ensures forall i :: 0 <= i < built ==> TaskBuilt(createTask, agents, i)
      ensures ok <==> built == |TaskSpecs()|
      ensures ok <==> TasksBuilt(createTask, agents)
      ensures !ok ==> !TaskBuilt(createTask, agents, built)
      ensures raised.Some? <==> !ok
      ensures raised.Some? ==> raised.value == TaskResult(createTask, agents, built).error
      ensures raised.Some? ==> warnings + [HandleCrewError(TasksFailed, raised.value)] == TaskFailureLog(createTask, agents, built)
      ensures made == MaterializedUpTo(createTask, agents, built)
      ensures warnings == ContextWarnings(createTask, agents, built)
      ensures calls == TaskCallsUpTo(agents, if ok then built else built + 1)
    {
      var lookup: map<string, Task> := map[];
      made, warnings, calls := [], [], [];
      built := 0;
      while built < |TaskSpecs()|
        invariant built <= |TaskSpecs()|
        invariant TasksBuiltUpTo(createTask, agents, built)
        invariant lookup == TaskLookup(createTask, agents, built)
        invariant made == MaterializedUpTo(createTask, agents, built)
        invariant warnings == ContextWarnings(createTask, agents, built)
        invariant calls == TaskCallsUpTo(agents, built)
      {
        var call := TaskCallAt(agents, built);
        var task := TaskResult(createTask, agents, built);
        calls := calls + [call];
        if task.Failure? {
          TasksBuiltUpToMeans(createTask, agents, built);
          return false, built, made, Some(task.error), warnings, calls;
        }
        var spec := TaskSpecs()[built];
        var resolved := ResolveContext(ContextRefs(spec.context), lookup);
        assert resolved == ContextAt(createTask, agents, built);
        warnings := warnings + ContextWarning(spec, resolved);
        assert warnings == ContextWarnings(createTask, agents, built + 1);
        made := made + [WithContext(task.value, resolved)];
        assert made == MaterializedUpTo(createTask, agents, built + 1);
        lookup := lookup[spec.id := task.value];
        assert lookup == TaskLookup(createTask, agents, built + 1);
        assert calls == TaskCallsUpTo(agents, built + 1);
        built := built + 1;
      }
      TasksBuiltUpToMeans(createTask, agents, built);
      return true, built, made, None, warnings, calls;
    }

    /** `_create_tasks` once an agent is available: the tasks built are
        appended, and an exception stops the stage with `false` after logging it. */
    method AppendTasks(createTask: TaskConstructor<Agent, Task>) returns (ok: bool, ghost built: nat)
      requires Bindable(agents)
      modifies this
      ensures agents == old(agents) && crew == old(crew) && agentCalls == old(agentCalls)
      ensures built <= |TaskSpecs()|
      ensures forall i :: 0 <= i < built ==> TaskBuilt(createTask, agents, i)
      ensures ok <==> built == |TaskSpecs()|
      ensures ok <==> TasksBuilt(createTask, agents)
      ensures tasks == old(tasks) + MaterializedUpTo(createTask, agents, built)
      ensures taskCalls == old(taskCalls) + TaskCallsUpTo(agents, if ok then built else built + 1)
      ensures ok ==> log == old(log) + ContextWarnings(createTask, agents, built)
      ensures !ok ==> !TaskBuilt(createTask, agents, built) && log == old(log) + TaskFailureLog(createTask, agents, built)
    {
      var count, made, raised;
      ghost var warnings, calls;
      ok, count, made, raised, warnings, calls := BuildTasks(createTask, agents);
      tasks := tasks + made;
      taskCalls := taskCalls + calls;
      built := count;
      if raised.Some? {
        log := log + (warnings + [HandleCrewError(TasksFailed, raised.value)]);
      } else {
        log := log + warnings;
      }
    }

    /** `_create_tasks`: with no agent it fails at once and changes nothing. */
    method CreateTasks(createTask: TaskConstructor<Agent, Task>) returns (ok: bool, ghost built: nat)
      requires Valid()
      modifies this
      ensures Valid()
      ensures agents == old(agents) && crew == old(crew) && agentCalls == old(agentCalls)
      ensures ok <==> TasksBuilt(createTask, agents)
      ensures agents.keys == [] ==>
                !ok && tasks == old(tasks) && taskCalls == old(taskCalls) && log == old(log)
      ensures agents.keys != [] ==>
                && built <= |TaskSpecs()|
                && (forall i :: 0 <= i < built ==> TaskBuilt(createTask, agents, i))
                && (ok <==> built == |TaskSpecs()|)
                && tasks == old(tasks) + MaterializedUpTo(createTask, agents, built)
                && taskCalls == old(taskCalls) + TaskCallsUpTo(agents, if ok then built else built + 1)
                && (ok ==> log == old(log) + ContextWarnings(createTask, agents, built))
                && (!ok ==> !TaskBuilt(createTask, agents, built) &&
                            log == old(log) + TaskFailureLog(createTask, agents, built))
    {
      if agents.keys == [] {
        return false, 0;
      }
      assert agents.keys[0] in agents.values;
      ok, built := AppendTasks(createTask);
    }

    // ------------------------------------------------------------------ crew

    function ManagedAt(c: Collaborators<Agent, Task, Crew, Llm>): (bool, seq<LogEntry>) {
      ManagedEnvironment(c.isManagedEnvironment)
    }

    function LlmAt(c: Collaborators<Agent, Task, Crew, Llm>): Result<LlmChoice<Llm>> {
      SelectLlm(config.model, ManagedAt(c).0, c.getLlm, c.platformDefaultModel)
    }

    function OpenAiKeyAt(c: Collaborators<Agent, Task, Crew, Llm>): (bool, seq<LogEntry>) {
      CheckOpenAiKey(ManagedAt(c).0, c.getProviderApiKey("openai"))
    }

    /** The arguments the crew constructor receives. */
    function CrewArgsAt(c: Collaborators<Agent, Task, Crew, Llm>, agents: OrderedMap<Agent>,
                        tasks: seq<MaterializedTask<Task>>): CrewArgs<Agent, MaterializedTask<Task>, Llm>
      requires agents.Valid() && LlmAt(c).Success?
    {
      CrewArgsFor(config, agents.Values(), tasks, LlmAt(c).value.llm, OpenAiKeyAt(c).0)
    }

    /** The crew stage succeeds: a model choice is reached and the constructor does not raise. */
    predicate CrewBuilt(c: Collaborators<Agent, Task, Crew, Llm>, agents: OrderedMap<Agent>,
                        tasks: seq<MaterializedTask<Task>>)
      requires agents.Valid()
    {
      LlmAt(c).Success? && c.newCrew(CrewArgsAt(c, agents, tasks)).Success?
    }

    /** What the crew stage logs. */
    function CrewLog(c: Collaborators<Agent, Task, Crew, Llm>, agents: OrderedMap<Agent>,
                     tasks: seq<MaterializedTask<Task>>): seq<LogEntry>
      requires agents.Valid()
    {
      ManagedAt(c).1 +
      match LlmAt(c)
      case Failure(e) => [HandleCrewError(CrewFailed, e)]
      case Success(choice) =>
        choice.logged + OpenAiKeyAt(c).1 +
        match c.newCrew(CrewArgsAt(c, agents, tasks))
        case Success(_) => []
        case Failure(e) => [HandleCrewError(CrewFailed, e)]
    }

    /** The crew stage's handler writes once, exactly when the stage fails. */
    lemma CrewLogTraced(c: Collaborators<Agent, Task, Crew, Llm>, agents: OrderedMap<Agent>,
                        tasks: seq<MaterializedTask<Task>>)
      requires agents.Valid()
      ensures TracedCount(CrewLog(c, agents, tasks)) == if CrewBuilt(c, agents, tasks) then 0 else 1
    {
      var env := ManagedAt(c).1;
      match LlmAt(c)
      case Failure(e) =>
        TracedCountZero(env);
        TracedCountAppend(env, [HandleCrewError(CrewFailed, e)]);
      case Success(choice) =>
        var rest := match c.newCrew(CrewArgsAt(c, agents, tasks))
                    case Success(_) => []
                    case Failure(e) => [HandleCrewError(CrewFailed, e)];
        assert CrewLog(c, agents, tasks) == env + (choice.logged + OpenAiKeyAt(c).1 + rest);
        TracedCountZero(env);
        TracedCountZero(choice.logged);
        TracedCountZero(OpenAiKeyAt(c).1);
        TracedCountAppend(env, choice.logged + OpenAiKeyAt(c).1 + rest);
        TracedCountAppend(choice.logged + OpenAiKeyAt(c).1, rest);
        TracedCountAppend(choice.logged, OpenAiKeyAt(c).1);
    }

    /** `_create_crew`: settles the environment, the model and the credential,
        then builds the crew from all agents and tasks; only a failing default
        model lookup or a raising constructor fail the stage. */
    method CreateCrew(c: Collaborators<Agent, Task, Crew, Llm>) returns (ok: bool)
      requires Valid()
      modifies this
      ensures Valid()
      ensures agents == old(agents) && tasks == old(tasks)
      ensures agentCalls == old(agentCalls) && taskCalls == old(taskCalls)
      ensures ok <==> CrewBuilt(c, agents, tasks)
      ensures ok ==> crew == Some(c.newCrew(CrewArgsAt(c, agents, tasks)).value)
      ensures !ok ==> crew == old(crew)
      ensures log == old(log) + CrewLog(c, agents, tasks)
    {
      var (managed, envLog) := ManagedEnvironment(c.isManagedEnvironment);
      var choice := SelectLlm(config.model, managed, c.getLlm, c.platformDefaultModel);
      if choice.Failure? {
        log := log + (envLog + [HandleCrewError(CrewFailed, choice.error)]);
        return false;
      }
      var (dummyKey, keyLog) := CheckOpenAiKey(managed, c.getProviderApiKey("openai"));
      var args := CrewArgsFor(config, agents.Values(), tasks, choice.value.llm, dummyKey);
      var made := c.newCrew(args);
      match made
      case Failure(e) =>
        log := log + (envLog + (choice.value.logged + keyLog + [HandleCrewError(CrewFailed, e)]));
        ok := false;
      case Success(built) =>
        log := log + (envLog + (choice.value.logged + keyLog + []));
        crew := Some(built);
        ok := true;
    }

    // --------------------------------------------------------------- prepare

    /** A successful agents stage over a non-empty agents section leaves some
        agent for the tasks stage to bind to. */
    lemma AgentsLeaveBindable(createAgent: AgentConstructor<ToolService, ToolFactory, Agent>,
                              positionalKey: nat -> string, start: OrderedMap<Agent>)
      requires start.Valid() && AgentsBuilt(createAgent, positionalKey) && AgentSpecs() != []
      ensures Bindable(PutAll(start, AgentEntries(createAgent, positionalKey, |AgentSpecs()|)))
    {
      var n := |AgentSpecs()|;
      AgentsBuiltUpToMeans(createAgent, positionalKey, n);
      var entries := AgentEntries(createAgent, positionalKey, n);
      AgentEntriesLength(createAgent, positionalKey, n);
      PutAllKeys(start, entries);
      PutAllValid(start, entries);
      assert KeysOf(entries)[0] in KeysOf(entries);
    }

    /** The part of `prepare` after a successful agents stage: the tasks stage,
        then the crew stage if the tasks stage succeeded. */
    method PrepareTasksAndCrew(createTask: TaskConstructor<Agent, Task>, c: Collaborators<Agent, Task, Crew, Llm>)
      returns (ok: bool, ghost added: seq<LogEntry>, ghost tasksMade: nat)
      requires Valid() && Bindable(agents)
      modifies this
      ensures Valid()
      ensures agents == old(agents) && agentCalls == old(agentCalls)
      ensures log == old(log) + added
      ensures ok <==> TasksBuilt(createTask, agents) && CrewBuilt(c, agents, tasks)
      ensures !ok ==> crew == old(crew)
      ensures tasksMade <= |TaskSpecs()|
      ensures tasks == old(tasks) + MaterializedUpTo(createTask, agents, tasksMade)
      ensures TasksBuilt(createTask, agents) ==>
                && tasksMade == |TaskSpecs()|
                && taskCalls == old(taskCalls) + TaskCallsUpTo(agents, tasksMade)
                && added == ContextWarnings(createTask, agents, tasksMade) + CrewLog(c, agents, tasks)
      ensures !TasksBuilt(createTask, agents) ==>
                && tasksMade < |TaskSpecs()|
                && !TaskBuilt(createTask, agents, tasksMade)
                && taskCalls == old(taskCalls) + TaskCallsUpTo(agents, tasksMade + 1)
                && added == TaskFailureLog(createTask, agents, tasksMade)
      ensures ok ==> crew == Some(c.newCrew(CrewArgsAt(c, agents, tasks)).value)
      ensures TracedCount(added) == if ok then 0 else 1
    {
      ok, tasksMade := AppendTasks(createTask);
      if !ok {
        added := TaskFailureLog(createTask, agents, tasksMade);
        TaskFailureLogTraced(createTask, agents, tasksMade);
        return;
      }
      ghost var warnings := ContextWarnings(createTask, agents, tasksMade);
      ContextWarningsUntraced(createTask, agents, tasksMade);
      ok := CreateCrew(c);
      added := warnings + CrewLog(c, agents, tasks);
      AppendAssociative(old(log), warnings, CrewLog(c, agents, tasks));
      TracedCountAppend(warnings, CrewLog(c, agents, tasks));
      CrewLogTraced(c, agents, tasks);
    }

    /** `prepare`: validation, then agents, tasks and crew, stopping at the first
        stage that reports false: a later stage neither calls its constructors
        nor changes its part of the state. `agentsMade` and `tasksMade` count
        what the agents and tasks stages built. The shared handler writes
        exactly once when a stage raised, and not at all otherwise. */
    method Prepare(createAgent: AgentConstructor<ToolService, ToolFactory, Agent>, positionalKey: nat -> string,
                   createTask: TaskConstructor<Agent, Task>, c: Collaborators<Agent, Task, Crew, Llm>)
      returns (ok: bool, ghost added: seq<LogEntry>, ghost agentsMade: nat, ghost tasksMade: nat)
      requires Valid()
      modifies this
      ensures Valid()
      ensures log == old(log) + added
      ensures ok <==> ValidateCrewConfig(config).None? && AgentsBuilt(createAgent, positionalKey) &&
                      TasksBuilt(createTask, agents) && CrewBuilt(c, agents, tasks)
      ensures !ok ==> crew == old(crew)
      // An invalid configuration stops before any constructor is called.
      ensures ValidateCrewConfig(config).Some? ==>
                && added == [Error(ValidateCrewConfig(config).value)]
                && agents == old(agents) && tasks == old(tasks)
                && agentCalls == old(agentCalls) && taskCalls == old(taskCalls)
      // A valid one goes to the agents stage; a failing agents stage stops
      // before any task constructor is called.
      ensures ValidateCrewConfig(config).None? && !AgentsBuilt(createAgent, positionalKey) ==>
                && agentsMade < |AgentSpecs()|
                && !AgentBuilt(createAgent, positionalKey, agentsMade)
                && agents == PutAll(old(agents), AgentEntries(createAgent, positionalKey, agentsMade))
                && agentCalls == old(agentCalls) + AgentCallsUpTo(positionalKey, agentsMade + 1)
                && added == AgentFailureLog(createAgent, positionalKey, agentsMade)
                && tasks == old(tasks) && taskCalls == old(taskCalls)
      // After a successful agents stage every agent is stored and the tasks stage runs.
      ensures ValidateCrewConfig(config).None? && AgentsBuilt(createAgent, positionalKey) ==>
                && agentsMade == |AgentSpecs()|
                && agents == PutAll(old(agents), AgentEntries(createAgent, positionalKey, agentsMade))
                && agentCalls == old(agentCalls) + AgentCallsUpTo(positionalKey, agentsMade)
                && Bindable(agents)
                && tasksMade <= |TaskSpecs()|
                && tasks == old(tasks) + MaterializedUpTo(createTask, agents, tasksMade)
      // A failing tasks stage stops before the crew stage.
      ensures ValidateCrewConfig(config).None? && AgentsBuilt(createAgent, positionalKey) &&
              !TasksBuilt(createTask, agents) ==>
                && tasksMade < |TaskSpecs()|
                && !TaskBuilt(createTask, agents, tasksMade)
                && taskCalls == old(taskCalls) + TaskCallsUpTo(agents, tasksMade + 1)
                && added == TaskFailureLog(createTask, agents, tasksMade)
      // After a successful tasks stage the crew stage runs over all agents and tasks.
      ensures ValidateCrewConfig(config).None? && AgentsBuilt(createAgent, positionalKey) &&
              TasksBuilt(createTask, agents) ==>
                && tasksMade == |TaskSpecs()|
                && taskCalls == old(taskCalls) + TaskCallsUpTo(agents, tasksMade)
                && added == ContextWarnings(createTask, agents, tasksMade) + CrewLog(c, agents, tasks)
      ensures ok ==> crew == Some(c.newCrew(CrewArgsAt(c, agents, tasks)).value)
      ensures TracedCount(added) <= 1
      ensures TracedCount(added) == 1 <==>
                && ValidateCrewConfig(config).None?
                && if !AgentsBuilt(createAgent, positionalKey) then AgentResult(createAgent, positionalKey, agentsMade).Failure?
                   else !ok
    {
      var invalid := ValidateCrewConfig(config);
      if invalid.Some? {
        log := log + [Error(invalid.value)];
        return false, [Error(invalid.value)], 0, 0;
      }
      ghost var start := agents;
      ok, agentsMade := CreateAgents(createAgent, positionalKey);
      if !ok {
        return false, AgentFailureLog(createAgent, positionalKey, agentsMade), agentsMade, 0;
      }
      AgentsLeaveBindable(createAgent, positionalKey, start);
      ok, added, tasksMade := PrepareTasksAndCrew(createTask, c);
    }

    // --------------------------------------------------------------- execute

    /** `execute`: without a crew, the fixed "not prepared" error; otherwise the
        normalised kickoff result, or the kickoff's exception message. A
        missing-data signal only adds a warning. */
    method Execute(kickoff: Crew -> Result<KickoffResult>, isDataMissing: Dictionary -> bool)
      returns (output: Dictionary)
      requires Valid()
      modifies this`log
      ensures crew.None? ==> output == ErrorOutput(CrewNotPrepared) && log == old(log)
      ensures crew.Some? && kickoff(crew.value).Failure? ==>
                output == ErrorOutput(kickoff(crew.value).error) &&
                log == old(log) + [HandleCrewError(ExecutionFailed, kickoff(crew.value).error)]
      ensures crew.Some? && kickoff(crew.value).Success? ==>
                var n := ProcessCrewOutput(kickoff(crew.value).value);
                output == n.output &&
                log == old(log) + n.logged + (if isDataMissing(n.output) then [Warning(DataMayBeMissing)] else [])
    {
      if crew.None? {
        return ErrorOutput(CrewNotPrepared);
      }
      var result := kickoff(crew.value);
      if result.Failure? {
        log := log + [HandleCrewError(ExecutionFailed, result.error)];
        return ErrorOutput(result.error);
      }
      var normalized := ProcessCrewOutput(result.value);
      log := log + normalized.logged;
      if isDataMissing(normalized.output) {
        log := log + [Warning(DataMayBeMissing)];
      }
      output := normalized.output;
    }
  }
}
