/** The declarative crew configuration and the pure helpers of crew
    preparation: validation, agent keys, async coercion, task context
    references and the shared error handler's message. */
module CrewConfig {
  import opened Wrappers

  datatype AgentSpec = AgentSpec(
    name: Option<string>,
    role: Option<string>,
    goal: string,
    backstory: string,
    tools: seq<string>,
    verbose: bool)

  /** The four shapes a task's "context" entry can take. */
  datatype ContextRef =
    | NoContext                              // no "context" key
    | Single(id: string)                     // "context": "research_task"
    | Many(ids: seq<string>)                 // "context": ["research_task", ...]
    | Mapping(taskIds: Option<seq<string>>)  // "context": {"task_ids": [...]}

  /** An absent "async_execution" reads as false. */
  datatype TaskSpec = TaskSpec(
    id: string,
    name: string,
    description: string,
    agent: Option<string>,
    expectedOutput: string,
    tools: seq<string>,
    context: ContextRef,
    asyncExecution: bool)

  datatype ProcessType = Sequential | Hierarchical

  /** The "crew" section of the configuration. */
  datatype ProcessSpec = ProcessSpec(
    process: ProcessType,
    verbose: bool,
    memory: bool,
    planning: bool,
    reasoning: bool,
    planningLlm: Option<string>,
    reasoningLlm: Option<string>)

  /** `agents` and `tasks` are `None` when the key is absent or null. */
  datatype CrewConfiguration = CrewConfiguration(
    agents: Option<seq<AgentSpec>>,
    tasks: Option<seq<TaskSpec>>,
    crew: ProcessSpec,
    model: Option<string>,
    maxRpm: Option<int>,
    outputDir: Option<string>)

  /** What the pipeline writes to its logger. `Traced` is an error logged with
      the exception's traceback, which only the shared error handler does. */
  datatype LogEntry = Info(text: string) | Warning(text: string) | Error(text: string) | Traced(text: string)

  /** A materialised task: the object the task constructor returned, and the
      `context` attribute the pipeline set on it afterwards (unset: `None`). */
  datatype MaterializedTask<T> = MaterializedTask(handle: T, context: Option<seq<T>>)

  /** No entry of `log` was written by the shared error handler. */
  predicate Untraced(log: seq<LogEntry>) {
    forall i :: 0 <= i < |log| ==> !log[i].Traced?
  }

  predicate SectionPresent<T>(section: Option<seq<T>>) {
    section.Some? && section.value != []
  }

  function MissingSection(section: string): string {
    "Missing or empty required section: " + section
  }

  /** `validate_crew_config`: `None` when valid; otherwise the error it logs,
      naming the first of "agents", "tasks" that is absent or empty. */
  function ValidateCrewConfig(c: CrewConfiguration): (err: Option<string>)
    ensures err.None? <==> SectionPresent(c.agents) && SectionPresent(c.tasks)
    ensures !SectionPresent(c.agents) ==> err == Some(MissingSection("agents"))
    ensures SectionPresent(c.agents) && !SectionPresent(c.tasks) ==> err == Some(MissingSection("tasks"))
  {
    if !SectionPresent(c.agents) then Some(MissingSection("agents"))
    else if !SectionPresent(c.tasks) then Some(MissingSection("tasks"))
    else None
  }

  /** `handle_crew_error(error, message)`: one error line, with traceback,
      made of the operation label, ": " and the exception's text. */
  function HandleCrewError(operation: string, error: string): (e: LogEntry)
    ensures e.Traced?
  {
    Traced(operation + ": " + error)
  }

  /** The handler's line can be split back into the label and the exception's text. */
  lemma HandleCrewErrorText(operation: string, error: string)
    ensures var text := HandleCrewError(operation, error).text;
            && |text| == |operation| + 2 + |error|
            && text[..|operation|] == operation && text[|operation|..|operation| + 2] == ": "
            && text[|operation| + 2..] == error
  {
  }

  /** The key an agent is stored under: its name, else its role, else the
      positional key of its (0-based) index. */
  function AgentKey(spec: AgentSpec, index: nat, positionalKey: nat -> string): (k: string)
    ensures spec.name.Some? ==> k == spec.name.value
    ensures spec.name.None? && spec.role.Some? ==> k == spec.role.value
    ensures spec.name.None? && spec.role.None? ==> k == positionalKey(index)
  {
    match spec.name
    case Some(n) => n
    case None => spec.role.GetOr(positionalKey(index))
  }

  /** The task configuration handed to the task constructor: only the last of
      `total` tasks may keep `async_execution`; nothing else changes. */
  function CoerceAsync(spec: TaskSpec, index: nat, total: nat): (s: TaskSpec)
    ensures s.asyncExecution <==> spec.asyncExecution && index + 1 == total
    ensures s == spec.(asyncExecution := s.asyncExecution)
  {
    if index + 1 == total then spec else spec.(asyncExecution := false)
  }

  /** The task ids a context entry refers to, in the order given. */
  function ContextRefs(c: ContextRef): (ids: seq<string>)
    ensures c.NoContext? ==> ids == []
    ensures c.Single? ==> ids == [c.id]
    ensures c.Many? ==> ids == c.ids
    ensures c.Mapping? ==> ids == c.taskIds.GetOr([])
  {
    match c
    case NoContext => []
    case Single(id) => [id]
    case Many(ids) => ids
    case Mapping(taskIds) => taskIds.GetOr([])
  }

  /** The tasks that `refs` resolve to in `lookup`, in reference order;
      references that resolve to nothing are dropped. */
  function ResolveContext<T>(refs: seq<string>, lookup: map<string, T>): (r: seq<T>)
    ensures |r| <= |refs|
  {
    if refs == [] then []
    else
      var rest := ResolveContext(refs[1..], lookup);
      if refs[0] in lookup then [lookup[refs[0]]] + rest else rest
  }

  /** Nothing is resolved exactly when no reference is known. */
  lemma {:induction false} ResolveContextEmpty<T>(refs: seq<string>, lookup: map<string, T>)
    ensures ResolveContext(refs, lookup) == [] <==> forall i :: 0 <= i < |refs| ==> refs[i] !in lookup
  {
    if refs != [] {
      ResolveContextEmpty(refs[1..], lookup);
      assert forall i :: 1 <= i < |refs| ==> refs[i] == refs[1..][i - 1];
    }
  }

  /** A resolved task is the task of some known reference. */
  lemma {:induction false} ResolvedFromReference<T>(refs: seq<string>, lookup: map<string, T>, x: T)
    requires x in ResolveContext(refs, lookup)
    ensures exists i :: 0 <= i < |refs| && refs[i] in lookup && lookup[refs[i]] == x
  {
    var rest := ResolveContext(refs[1..], lookup);
    if refs[0] in lookup && x == lookup[refs[0]] {
      assert refs[0] in lookup && lookup[refs[0]] == x;
    } else {
      assert x in rest;
      ResolvedFromReference(refs[1..], lookup, x);
      var i :| 0 <= i < |refs[1..]| && refs[1..][i] in lookup && lookup[refs[1..][i]] == x;
      assert refs[i + 1] == refs[1..][i];
    }
  }

  /** The task of a known reference is resolved. */
  lemma {:induction false} ReferenceResolved<T>(refs: seq<string>, lookup: map<string, T>, i: nat)
    requires i < |refs| && refs[i] in lookup
    ensures lookup[refs[i]] in ResolveContext(refs, lookup)
  {
    if i > 0 {
      assert refs[1..][i - 1] == refs[i];
      ReferenceResolved(refs[1..], lookup, i - 1);
    }
  }

  /** The resolved tasks are exactly the tasks of the known references. */
  lemma ResolveContextMembers<T>(refs: seq<string>, lookup: map<string, T>)
    ensures forall x :: x in ResolveContext(refs, lookup) <==>
              exists i :: 0 <= i < |refs| && refs[i] in lookup && lookup[refs[i]] == x
  {
    forall x | x in ResolveContext(refs, lookup)
      ensures exists i :: 0 <= i < |refs| && refs[i] in lookup && lookup[refs[i]] == x
    {
      ResolvedFromReference(refs, lookup, x);
    }
    forall i | 0 <= i < |refs| && refs[i] in lookup
      ensures lookup[refs[i]] in ResolveContext(refs, lookup)
    {
      ReferenceResolved(refs, lookup, i);
    }
  }

  /** When every reference is known, each resolves to its own task, in order. */
  lemma {:induction false} ResolveContextAll<T>(refs: seq<string>, lookup: map<string, T>)
    requires forall i :: 0 <= i < |refs| ==> refs[i] in lookup
    ensures |ResolveContext(refs, lookup)| == |refs|
    ensures forall i :: 0 <= i < |refs| ==> ResolveContext(refs, lookup)[i] == lookup[refs[i]]
  {
    if refs != [] {
      assert forall i :: 1 <= i < |refs| ==> refs[i] == refs[1..][i - 1];
      ResolveContextAll(refs[1..], lookup);
    }
  }
}
