/** The decisions of crew assembly: which options reach the crew constructor,
    which language model it gets, and whether the placeholder OpenAI key is set. */
module CrewAssembly {
  import opened Wrappers
  import opened CrewConfig

  /** The keyword arguments of the crew constructor. An option that is not
      forwarded is `None`. `dummyOpenAiKey` stands for the placeholder
      credential put into the process environment before construction. */
  datatype CrewArgs<Agent, Task, Llm> = CrewArgs(
    agents: seq<Agent>,
    tasks: seq<Task>,
    process: ProcessType,
    verbose: bool,
    memory: bool,
    planning: Option<bool>,
    planningLlm: Option<string>,
    reasoning: Option<bool>,
    reasoningLlm: Option<string>,
    maxRpm: Option<int>,
    llm: Option<Llm>,
    dummyOpenAiKey: bool)

  /** The external collaborators of crew assembly; `Failure` stands for a raised exception. */
  datatype Collaborators<!Agent, !Task, Crew, !Llm> = Collaborators(
    isManagedEnvironment: Result<bool>,
    getLlm: string -> Result<Llm>,
    platformDefaultModel: string,
    getProviderApiKey: string -> Result<Option<string>>,
    newCrew: CrewArgs<Agent, MaterializedTask<Task>, Llm> -> Result<Crew>)

  const AuthUnavailable := "Enhanced Databricks auth not available for crew preparation"
  const FallingBack := "Falling back to Databricks model in Apps environment"
  const KeyKept := "OpenAI API key is configured, keeping it for CrewAI"
  const DummyKeySet := "No OpenAI API key configured, set dummy key for CrewAI validation"

  function CouldNotCreateLlm(model: string, error: string): string {
    "Could not create LLM for model " + model + ": " + error
  }

  function KeyCheckFailed(error: string): string {
    "Error checking OpenAI API key configuration: " + error
  }

  /** Whether assembly runs inside the managed platform; a detector that
      raises counts as "not managed" and leaves one warning. */
  function ManagedEnvironment(check: Result<bool>): (r: (bool, seq<LogEntry>))
    ensures r.0 <==> check == Success(true)
    ensures check.Success? ==> r.1 == []
    ensures check.Failure? ==> r.1 == [Warning(AuthUnavailable)]
    ensures Untraced(r.1)
  {
    match check
    case Success(b) => (b, [])
    case Failure(_) => (false, [Warning(AuthUnavailable)])
  }

  /** The language model handed to the crew, with what was logged choosing it. */
  datatype LlmChoice<Llm> = LlmChoice(llm: Option<Llm>, logged: seq<LogEntry>)

  /** A configured model is built if possible; if that fails, the platform's
      default model is tried only inside the managed platform, and otherwise
      the crew library's own default applies. Without a configured model the
      platform default is used inside the managed platform only; failing to
      build it is the one case that fails assembly. */
  function SelectLlm<Llm>(model: Option<string>, managed: bool, getLlm: string -> Result<Llm>,
                          platformDefault: string): (c: Result<LlmChoice<Llm>>)
    ensures c.Failure? <==> model.None? && managed && getLlm(platformDefault).Failure?
    ensures c.Success? && c.value.llm.Some? ==>
              (model.Some? && getLlm(model.value) == Success(c.value.llm.value)) ||
              (managed && getLlm(platformDefault) == Success(c.value.llm.value))
    ensures model.Some? && getLlm(model.value).Success? ==>
              c == Success(LlmChoice(Some(getLlm(model.value).value), []))
    ensures model.Some? && getLlm(model.value).Failure? ==>
              c.Success? && c.value.logged != [] &&
              c.value.logged[0] == Warning(CouldNotCreateLlm(model.value, getLlm(model.value).error)) &&
              (Info(FallingBack) in c.value.logged <==> managed) &&
              (!managed ==> c.value.llm.None?)
    ensures model.None? && !managed ==> c == Success(LlmChoice(None, []))
    ensures c.Success? ==> Untraced(c.value.logged)
  {
    match model
    case Some(m) =>
      (match getLlm(m)
       case Success(llm) => Success(LlmChoice(Some(llm), []))
       case Failure(e) =>
         var warned := [Warning(CouldNotCreateLlm(m, e))];
         if !managed then Success(LlmChoice(None, warned))
         else
           var fallback := (match getLlm(platformDefault)
                            case Success(llm) => Some(llm)
                            case Failure(_) => None);
           Success(LlmChoice(fallback, warned + [Info(FallingBack)])))
    case None =>
      if !managed then Success(LlmChoice(None, []))
      else
        match getLlm(platformDefault)
        case Success(llm) => Success(LlmChoice(Some(llm), []))
        case Failure(e) => Failure(e)
  }

  /** Inside the managed platform the OpenAI key is looked up: a configured key
      is kept, a missing one is replaced by the placeholder, and a failing lookup
      is only a warning. Outside it nothing happens. */
  function CheckOpenAiKey(managed: bool, lookup: Result<Option<string>>): (r: (bool, seq<LogEntry>))
    ensures r.0 <==> managed && lookup == Success(None)
    ensures !managed ==> r.1 == []
    ensures managed ==> |r.1| == 1
    ensures managed && lookup.Failure? ==> r.1 == [Warning(KeyCheckFailed(lookup.error))]
    ensures managed && lookup.Success? && lookup.value.Some? ==> r.1 == [Info(KeyKept)]
    ensures Untraced(r.1)
  {
    if !managed then (false, [])
    else
      match lookup
      case Failure(e) => (false, [Warning(KeyCheckFailed(e))])
      case Success(Some(_)) => (false, [Info(KeyKept)])
      case Success(None) => (true, [Info(DummyKeySet)])
  }

  /** The constructor arguments: agents, tasks, process, verbosity and memory
      always; planning and reasoning (with their model ids, when given) only
      when enabled; the rate limit exactly as configured. */
  function CrewArgsFor<Agent, Task, Llm>(config: CrewConfiguration, agents: seq<Agent>, tasks: seq<Task>,
                                         llm: Option<Llm>, dummyKey: bool): (a: CrewArgs<Agent, Task, Llm>)
    ensures a.agents == agents && a.tasks == tasks && a.llm == llm && a.dummyOpenAiKey == dummyKey
    ensures a.process == config.crew.process && a.verbose == config.crew.verbose && a.memory == config.crew.memory
    ensures (a.planning.Some? <==> config.crew.planning) && (a.planning.Some? ==> a.planning.value)
    ensures a.planningLlm == (if config.crew.planning then config.crew.planningLlm else None)
    ensures (a.reasoning.Some? <==> config.crew.reasoning) && (a.reasoning.Some? ==> a.reasoning.value)
    ensures a.reasoningLlm == (if config.crew.reasoning then config.crew.reasoningLlm else None)
    ensures a.maxRpm == config.maxRpm
  {
    var p := config.crew;
    CrewArgs(agents, tasks, p.process, p.verbose, p.memory,
             if p.planning then Some(true) else None,
             if p.planning then p.planningLlm else None,
             if p.reasoning then Some(true) else None,
             if p.reasoning then p.reasoningLlm else None,
             config.maxRpm, llm, dummyKey)
  }
}
