# Kasal core, modelled in Dafny

This project models four pieces of the Kasal backend and proves properties about them.

- **Crew preparation and execution.** `CrewPreparation` holds a crew configuration and goes through four stages in order:
  1. it validates the configuration;
  2. it builds the agents into an insertion-ordered map;
  3. it builds the tasks in declaration order, binding each to its agent and resolving its context references against earlier tasks;
  4. it assembles the crew.

  It then runs the crew and normalises the output. The module that implements this is not part of this model. Its behaviour is taken from the assertions of its unit tests.

  Everything outside the pipeline is a function parameter returning `Result` (a `Failure` is a raised exception carrying its message) or `Option` (`None` is a refusal). This covers the agent and task constructors, the crew constructor, kickoff, the language-model lookup, the managed-environment detector and the API-key lookup. What the pipeline logs is a ghost sequence of entries. An entry written by the shared error handler is `Traced`.
- **Execution log queue.** A process-wide singleton holds one FIFO queue. `enqueue_log` builds a record, adds the group fields only when a group context is given, and puts the record at the back of the queue.
- **Identity and RBAC tables.** The user, refresh-token, role, privilege, role-privilege, user-role and identity-provider tables are sequences of rows. Each query is its relational meaning: a filter or a join. Each update replaces the table it writes, inside a `Session` class.
- **Agent store with group isolation.** Agents are listed per group, newest first, and nothing is listed without group ids. Each agent is stamped with the creating group. A partial update writes only the fields that are not `None`.

Modules follow the program's structure:
- `Wrappers`, `Values` and `UserContext` hold the shared types.
- `OrderedMaps` is Python's insertion-ordered `dict`.
- `CrewConfig`, `CrewOutput`, `CrewAssembly` and `CrewPreparation` model crew preparation.
- `ExecutionLogsQueue`, `UserRepository` and `AgentService` model the other three pieces.

The crew-preparation tests fix some behaviour, and the model follows them:
- The `async_execution` coercion is applied to the configuration handed to the task constructor, not to the task after it is built. The recorded call arguments of the coercion tests show this.
- A task whose agent is unknown is bound to one of the available agents. The contracts never say which one.

Some behaviour is not fixed by any test, and the model makes a choice:
- A task's context is resolved only against tasks built before it. The tests only refer to earlier tasks, so what a reference to a later task resolves to is open; in the model it resolves to nothing.
- The two model-choice branches in which the platform default model also fails to build (see `CrewAssembly.SelectLlm` under "## Left out").

## Model

| member | source | states |
|---|---|---|
| OrderedMaps.Empty | src/backend/tests/unit/engines/crewai/test_crew_preparation.py:97 | the new map is well formed and has no keys and no values |
| OrderedMaps.OrderedMap.Put | src/backend/tests/unit/engines/crewai/test_crew_preparation.py:160-171 | assigning a key keeps the map well formed and stores the value under that key; every other key keeps its value; a new key goes last in the key order, and an existing key keeps its place |
| OrderedMaps.OrderedMap.Values | src/backend/tests/unit/engines/crewai/test_crew_preparation.py:432-446 | `values()` lists one value per key, in key order, each the value stored under that key |
| OrderedMaps.PutAllValid | src/backend/tests/unit/engines/crewai/test_crew_preparation.py:160-171 | assigning any sequence of entries keeps a well-formed map well formed |
| OrderedMaps.PutAllSnoc | src/backend/tests/unit/engines/crewai/test_crew_preparation.py:160-171 | assigning one more entry is one more single assignment after the others |
| OrderedMaps.KeysOf | src/backend/tests/unit/engines/crewai/test_crew_preparation.py:160-171 | the assigned keys are listed one per entry, in entry order |
| OrderedMaps.PutAllKeys | src/backend/tests/unit/engines/crewai/test_crew_preparation.py:169-171 | after the assignments a key is present exactly when it was present before or some entry assigned it |
| OrderedMaps.PutAllLast | src/backend/tests/unit/engines/crewai/test_crew_preparation.py:169-171 | a key holds the value of the last entry that assigned it |
| OrderedMaps.PutAllUntouched | src/backend/tests/unit/engines/crewai/test_crew_preparation.py:169-171 | a key that no entry assigns keeps its old value |
| OrderedMaps.PutAllFreshKeys | src/backend/tests/unit/engines/crewai/test_crew_preparation.py:169-171 | assigning pairwise distinct new keys appends them to the key order, in entry order |
| CrewConfig.ValidateCrewConfig | src/backend/tests/unit/engines/crewai/test_crew_preparation.py:758-802 | the configuration is valid exactly when both "agents" and "tasks" are present and non-empty; otherwise the error names the first section that is missing or empty |
| CrewConfig.HandleCrewError | src/backend/tests/unit/engines/crewai/test_crew_preparation.py:805-816 | the handler writes one error entry with the traceback |
| CrewConfig.HandleCrewErrorText | src/backend/tests/unit/engines/crewai/test_crew_preparation.py:805-816 | the entry's text is the operation label, then ": ", then the exception's message, and splits back into exactly those parts |
| CrewConfig.AgentKey | src/backend/tests/unit/engines/crewai/test_crew_preparation.py:160-199 | an agent's key is its name, else its role, else its positional key |
| CrewConfig.CoerceAsync | src/backend/tests/unit/engines/crewai/test_crew_preparation.py:284-322 | the configuration handed over keeps `async_execution` exactly when the spec declares it and is the last one; every other field is unchanged |
| CrewConfig.ContextRefs | src/backend/tests/unit/engines/crewai/test_crew_preparation.py:236-402 | the referenced ids: none without a context; the one id of a string; the ids of a list; the `task_ids` of a mapping, or none when it has none |
| CrewConfig.ResolveContext | src/backend/tests/unit/engines/crewai/test_crew_preparation.py:236-250 | no more tasks are resolved than there are references |
| CrewConfig.ResolveContextEmpty | src/backend/tests/unit/engines/crewai/test_crew_preparation.py:405-429 | nothing resolves exactly when no reference names a known task |
| CrewConfig.ResolvedFromReference | src/backend/tests/unit/engines/crewai/test_crew_preparation.py:236-250 | every resolved task is the task of some known reference |
| CrewConfig.ReferenceResolved | src/backend/tests/unit/engines/crewai/test_crew_preparation.py:236-250 | the task of every known reference is resolved |
| CrewConfig.ResolveContextMembers | src/backend/tests/unit/engines/crewai/test_crew_preparation.py:236-402 | the resolved tasks are exactly the tasks of the known references |
| CrewConfig.ResolveContextAll | src/backend/tests/unit/engines/crewai/test_crew_preparation.py:236-402 | when every reference is known, reference i resolves to its own task, in order, and nothing is dropped |
| CrewOutput.ErrorOutput | src/backend/tests/unit/engines/crewai/test_crew_preparation.py:716-721 | the error envelope has exactly one key, "error", holding the message |
| CrewOutput.ProcessCrewOutput | src/backend/tests/unit/engines/crewai/test_crew_preparation.py:822-866 | a dict comes back identical; an object with `raw` becomes `{"result": raw, "type": "crew_result"}`; a string becomes `{"result": s, "type": "processed"}`; a result that cannot be inspected becomes an error envelope that starts with "Failed to process output" and logs one error |
| CrewOutput.ErrorOnlyOnFailure | src/backend/tests/unit/engines/crewai/test_crew_preparation.py:822-866 | an "error" key appears exactly when inspection failed or the dict already had one, and the failure message carries the fixed prefix |
| CrewAssembly.ManagedEnvironment | src/backend/tests/unit/engines/crewai/test_crew_preparation.py:523-538 | assembly counts as managed exactly when the detector answers true; a detector that raises counts as not managed and logs exactly the "auth not available" warning, and nothing goes through the handler |
| CrewAssembly.SelectLlm | src/backend/tests/unit/engines/crewai/test_crew_preparation.py:541-618 | model choice fails only when no model is configured, the environment is managed and the platform default cannot be built. A configured model that builds is used silently. One that fails logs "Could not create LLM for model m: e" first, falls back only in the managed environment, and logs the fallback info exactly then. A chosen model is the configured one or the platform default. Nothing goes through the handler |
| CrewAssembly.CheckOpenAiKey | src/backend/tests/unit/engines/crewai/test_crew_preparation.py:644-697 | outside the managed environment nothing happens; inside it exactly one line is logged: the key is kept, or the placeholder is set (the only case that sets it), or a failed lookup is only a warning |
| CrewAssembly.CrewArgsFor | src/backend/tests/unit/engines/crewai/test_crew_preparation.py:432-507 | the crew constructor receives the agents, tasks, process, verbosity and memory, plus the chosen model and the placeholder flag; planning and reasoning, with their model ids, only when enabled; `max_rpm` unchanged |
| CrewPreparation.TracedCountZero | src/backend/tests/unit/engines/crewai/test_crew_preparation.py:150-157 | no handler entry is counted exactly when no entry was written by the handler |
| CrewPreparation.TracedCountAppend | src/backend/tests/unit/engines/crewai/test_crew_preparation.py:150-157 | the handler entries of two logs add up |
| CrewPreparation.CrewPreparation.constructor | src/backend/tests/unit/engines/crewai/test_crew_preparation.py:90-99 | a new preparation keeps its configuration and tool services, has no agents, no tasks and no crew, and has logged and called nothing |
| CrewPreparation.CrewPreparation.AgentsBuiltUpToMeans | src/backend/tests/unit/engines/crewai/test_crew_preparation.py:160-206 | the first k specs all yield agents exactly when each of them does |
| CrewPreparation.CrewPreparation.AgentEntries | src/backend/tests/unit/engines/crewai/test_crew_preparation.py:160-206 | at most one entry is stored per spec considered |
| CrewPreparation.CrewPreparation.AgentCallsUpTo | src/backend/tests/unit/engines/crewai/test_crew_preparation.py:172-174 | one constructor call is recorded per spec considered |
| CrewPreparation.CrewPreparation.AgentCallsAt | src/backend/tests/unit/engines/crewai/test_crew_preparation.py:172-180 | call i passes spec i and its key |
| CrewPreparation.CrewPreparation.AgentEntriesAt | src/backend/tests/unit/engines/crewai/test_crew_preparation.py:160-199 | when the first k specs all yield agents there are k entries, and entry i is spec i's key with the agent built from spec i |
| CrewPreparation.CrewPreparation.StoredUnderKey | src/backend/tests/unit/engines/crewai/test_crew_preparation.py:160-199 | after a successful agents stage, each spec's agent is stored under its own key unless a later spec has the same key |
| CrewPreparation.CrewPreparation.AgentFailureLog | src/backend/tests/unit/engines/crewai/test_crew_preparation.py:202-216 | the agents stage's failure log holds one handler entry when the constructor raised and none when it refused |
| CrewPreparation.CrewPreparation.BuildAgents | src/backend/tests/unit/engines/crewai/test_crew_preparation.py:160-216 | the loop builds the specs in order and stops at the first refusal or exception. It succeeds exactly when all specs were built. The result is the start map with the built entries assigned. Calls are recorded up to and including the failing one. It reports the exception's message exactly when one was raised |
| CrewPreparation.CrewPreparation.CreateAgents | src/backend/tests/unit/engines/crewai/test_crew_preparation.py:160-216 | the agents stage returns true exactly when every spec yields an agent. It stores the built agents under their keys and records one call per spec reached. On an exception it writes through the handler once; on success it logs nothing; tasks and crew are unchanged |
| CrewPreparation.CrewPreparation.TaskAgent | src/backend/tests/unit/engines/crewai/test_crew_preparation.py:219-233 | a task is bound to the agent under its declared key when that key is known |
| CrewPreparation.CrewPreparation.TaskAgentAvailable | src/backend/tests/unit/engines/crewai/test_crew_preparation.py:253-273 | a task naming an unknown agent is still bound to one of the map's agents |
| CrewPreparation.CrewPreparation.TasksBuiltUpToMeans | src/backend/tests/unit/engines/crewai/test_crew_preparation.py:219-233 | the first k specs all yield tasks exactly when each of them does |
| CrewPreparation.CrewPreparation.MaterializedUpTo | src/backend/tests/unit/engines/crewai/test_crew_preparation.py:219-233 | at most one task is appended per spec considered |
| CrewPreparation.CrewPreparation.MaterializedIndex | src/backend/tests/unit/engines/crewai/test_crew_preparation.py:219-233 | when the first k specs all yield tasks there are k tasks, and task i is the result of construction call i, with its context |
| CrewPreparation.CrewPreparation.TaskCallsUpTo | src/backend/tests/unit/engines/crewai/test_crew_preparation.py:284-322 | one constructor call is recorded per spec considered |
| CrewPreparation.CrewPreparation.TaskCallsAt | src/backend/tests/unit/engines/crewai/test_crew_preparation.py:284-322 | call i passes spec i's id, spec i with `async_execution` coerced, and its agent |
| CrewPreparation.CrewPreparation.TaskLookupHas | src/backend/tests/unit/engines/crewai/test_crew_preparation.py:236-402 | a built task can be referred to by its id from every later spec, until a later task with the same id replaces it |
| CrewPreparation.CrewPreparation.TaskLookupFrom | src/backend/tests/unit/engines/crewai/test_crew_preparation.py:236-429 | a reference can only resolve to an earlier task that was built and has that id |
| CrewPreparation.CrewPreparation.ContextOfEarlierTasks | src/backend/tests/unit/engines/crewai/test_crew_preparation.py:236-402 | a task whose references all name earlier tasks gets exactly those tasks as its context, in reference order, with no warning |
| CrewPreparation.CrewPreparation.ContextUnresolved | src/backend/tests/unit/engines/crewai/test_crew_preparation.py:405-429 | a task whose references name no earlier task keeps an unset context and logs "No context tasks could be resolved for task <id>" |
| CrewPreparation.CrewPreparation.ContextWarnings | src/backend/tests/unit/engines/crewai/test_crew_preparation.py:405-429 | the tasks stage logs only warnings while building |
| CrewPreparation.CrewPreparation.ContextWarningsUntraced | src/backend/tests/unit/engines/crewai/test_crew_preparation.py:405-429 | unresolved context never goes through the handler |
| CrewPreparation.CrewPreparation.TaskFailureLogTraced | src/backend/tests/unit/engines/crewai/test_crew_preparation.py:325-334 | a failing tasks stage writes through the handler exactly once |
| CrewPreparation.CrewPreparation.BuildTasks | src/backend/tests/unit/engines/crewai/test_crew_preparation.py:219-429 | the loop builds the specs in order and stops at the first exception. It succeeds exactly when every spec yields a task. The built tasks, the warnings and the calls (up to and including the failing one) are the stage functions of the number built. On failure it reports the raised message and the handler's entry |
| CrewPreparation.CrewPreparation.AppendTasks | src/backend/tests/unit/engines/crewai/test_crew_preparation.py:219-429 | with an agent available, the built tasks are appended and the calls recorded. Success logs only the context warnings; failure also writes one handler entry; agents and crew are unchanged |
| CrewPreparation.CrewPreparation.CreateTasks | src/backend/tests/unit/engines/crewai/test_crew_preparation.py:219-429 | the tasks stage returns true exactly when an agent is available and every spec yields a task. With no agent it returns false and changes nothing; otherwise it behaves as the helper above |
| CrewPreparation.CrewPreparation.CrewLogTraced | src/backend/tests/unit/engines/crewai/test_crew_preparation.py:510-697 | the crew stage writes through the handler exactly once when it fails and never when it succeeds, whatever warnings it logs |
| CrewPreparation.CrewPreparation.CreateCrew | src/backend/tests/unit/engines/crewai/test_crew_preparation.py:432-697 | the crew stage returns true exactly when a model choice is reached and the constructor does not raise; the crew is then the constructed value, otherwise it is unchanged; the log gains exactly the stage's entries |
| CrewPreparation.CrewPreparation.Prepare | src/backend/tests/unit/engines/crewai/test_crew_preparation.py:101-157 | `prepare` returns true exactly when validation and the agents, tasks and crew stages all succeed. It stops at the first stage that fails: an invalid configuration logs exactly its error and calls no constructor; a failing agents stage calls no task constructor and leaves the tasks as they were; a failing tasks stage does not reach the crew stage. Each stage that runs leaves the agents, tasks, recorded calls and log that its own contract gives. On success the crew is the value the crew constructor returned for all agents and tasks. The handler writes exactly once when a stage raised, and not at all otherwise, including a refusing agent constructor |
| CrewPreparation.CrewPreparation.PrepareTasksAndCrew | src/backend/tests/unit/engines/crewai/test_crew_preparation.py:101-157 | after a successful agents stage: the tasks stage runs, and the crew stage runs only if the tasks stage succeeded. The agents are unchanged. The log gains the tasks stage's failure log, or the context warnings followed by the crew stage's log. The handler writes once exactly when preparation fails |
| CrewPreparation.CrewPreparation.AgentsLeaveBindable | src/backend/tests/unit/engines/crewai/test_crew_preparation.py:101-126 | a successful agents stage over a non-empty agents section leaves an agent for the tasks stage to bind to |
| CrewPreparation.CrewPreparation.Execute | src/backend/tests/unit/engines/crewai/test_crew_preparation.py:700-752 | without a crew the result is exactly `{"error": "Crew not prepared"}`. A raising kickoff gives `{"error": message}` and one handler entry. Otherwise the result is the normalised output, unchanged even when data looks missing, which only adds a warning |
| ExecutionLogsQueue.Queue.constructor | src/backend/src/services/execution_logs_queue.py:14 | a new queue is empty and has the given bound |
| ExecutionLogsQueue.Queue.PutNowait | src/backend/src/services/execution_logs_queue.py:55-59 | `put_nowait` fails exactly when a bounded queue is full and then changes nothing; otherwise it appends the item at the back |
| ExecutionLogsQueue.JobOutputQueue.constructor | src/backend/src/services/execution_logs_queue.py:11-15 | the instance owns a fresh, empty queue |
| ExecutionLogsQueue.JobOutputQueue.GetQueue | src/backend/src/services/execution_logs_queue.py:17-19 | `get_queue` returns the instance's own queue |
| ExecutionLogsQueue.Process.constructor | src/backend/src/services/execution_logs_queue.py:8-9 | before first use there is no instance |
| ExecutionLogsQueue.Process.NewJobOutputQueue | src/backend/src/services/execution_logs_queue.py:11-15 | the first construction creates the instance and an empty queue; every later one returns the same instance and creates nothing |
| ExecutionLogsQueue.Process.GetJobOutputQueue | src/backend/src/services/execution_logs_queue.py:21-23 | every call returns the queue of the one instance, which is fresh and empty only on the first call |
| ExecutionLogsQueue.Process.EnqueueLog | src/backend/src/services/execution_logs_queue.py:25-62 | `enqueue_log` returns true exactly when the queue is unbounded or below capacity; one record is then appended at the back and earlier records stay; otherwise the queue is unchanged |
| ExecutionLogsQueue.OptionalString | src/backend/src/services/execution_logs_queue.py:51-52 | a missing group field is stored as None, a present one as its string |
| ExecutionLogsQueue.LogRecord | src/backend/src/services/execution_logs_queue.py:43-52 | the record has `job_id`, `content` and `timestamp` (the supplied one, else the current time); `group_id` and `group_email` appear exactly when a group context is given and hold its primary group id and email |
| UserRepository.GetValidToken | src/backend/src/repositories/user_repository.py:74-84 | a returned token carries the value, has not expired and is not revoked; none is returned exactly when no row is valid |
| UserRepository.RevokeWhere | src/backend/src/repositories/user_repository.py:86-94 | every row that matches is revoked, and every other row is unchanged, in place |
| UserRepository.RevokedTokenInvalid | src/backend/src/repositories/user_repository.py:86-89 | after revoking a token, no valid row carries it at any time |
| UserRepository.RevokedUserHasNoValidToken | src/backend/src/repositories/user_repository.py:91-94 | after revoking a user's tokens no valid token of that user is found; every row belonging to another user is unchanged; a user without tokens changes nothing |
| UserRepository.RoleNamed | src/backend/src/repositories/user_repository.py:213 | some role row has that id and that name |
| UserRepository.HasRole | src/backend/src/repositories/user_repository.py:211-217 | `has_role` is true exactly when some assignment of the user points to a role with that name |
| UserRepository.FindAssignment | src/backend/src/repositories/user_repository.py:222-225 | the existence check finds an assignment of the pair exactly when one is stored |
| UserRepository.WithoutAssignment | src/backend/src/repositories/user_repository.py:238-241 | the remaining rows are exactly the stored rows other than assignments of the pair |
| UserRepository.WithoutAssignmentGone | src/backend/src/repositories/user_repository.py:238-241 | no assignment of the removed pair is left |
| UserRepository.RoleExists | src/backend/src/repositories/user_repository.py:256-258 | some role row has that id |
| UserRepository.HoldsRole | src/backend/src/repositories/user_repository.py:256-259 | the user has an assignment of a role id that exists in the roles table |
| UserRepository.Granted | src/backend/src/repositories/user_repository.py:253-259 | some grant of the privilege is to a role the user holds |
| UserRepository.GrantedIsReachable | src/backend/src/repositories/user_repository.py:251-273 | the grant check agrees with the four-table join, in both directions |
| UserRepository.GetUserPrivileges | src/backend/src/repositories/user_repository.py:251-261 | a privilege row is listed exactly when it is stored and granted to the user |
| UserRepository.HasPrivilege | src/backend/src/repositories/user_repository.py:263-273 | `has_privilege` is true exactly when some privilege row of that name is granted to the user |
| UserRepository.HasPrivilegeListed | src/backend/src/repositories/user_repository.py:251-273 | a user has a privilege exactly when one of that name is among the user's privileges |
| UserRepository.HasPrivilegeReachable | src/backend/src/repositories/user_repository.py:263-273 | a user has a privilege exactly when the join reaches a privilege of that name |
| UserRepository.UserPrivilegesReachable | src/backend/src/repositories/user_repository.py:251-261 | a privilege is listed exactly when it is stored and the join reaches it |
| UserRepository.ClearDefaults | src/backend/src/repositories/user_repository.py:300-301 | every provider loses the default flag and nothing else changes |
| UserRepository.MarkDefault | src/backend/src/repositories/user_repository.py:304-305 | exactly the providers with that id get the flag; the rest are unchanged |
| UserRepository.SetAsDefaultMarks | src/backend/src/repositories/user_repository.py:297-305 | after both updates a provider is default exactly when it has the given id, and nothing else about any provider changes |
| UserRepository.SetAsDefaultUnique | src/backend/src/repositories/user_repository.py:297-305 | with unique ids at most one provider is default afterwards, and one is default exactly when the id exists |
| UserRepository.FilterUsers | src/backend/src/repositories/user_repository.py:44-48 | a user is kept exactly when it is stored and matches the role and status filters present |
| UserRepository.ListWithFilters | src/backend/src/repositories/user_repository.py:40-52 | at most `limit` users are returned, all stored and matching; their number is the matching count after `skip`, capped at `limit` |
| UserRepository.Session.constructor | src/backend/src/repositories/user_repository.py:9-10 | a session works over the rows already stored, in every table |
| UserRepository.Session.RevokeToken | src/backend/src/repositories/user_repository.py:86-89 | the token table is the table with that token revoked, no valid row carries the token afterwards at any time, and every other table is unchanged |
| UserRepository.Session.RevokeAllForUser | src/backend/src/repositories/user_repository.py:91-94 | every token of the user is revoked, every other token row is unchanged, and every other table is unchanged |
| UserRepository.Session.AssignRole | src/backend/src/repositories/user_repository.py:219-236 | an existing assignment adds nothing; otherwise exactly one row with the given user, role and assigner is appended. The pair is assigned afterwards, uniqueness of pairs is kept, and every other table is unchanged |
| UserRepository.Session.RemoveRole | src/backend/src/repositories/user_repository.py:238-241 | exactly the assignments of the pair are deleted, none is left, and every other table is unchanged |
| UserRepository.Session.SetAsDefault | src/backend/src/repositories/user_repository.py:297-305 | each provider becomes default exactly when it has the given id, with nothing else changed, and every other table is unchanged |
| AgentService.GroupMembers | src/backend/src/services/agent_service.py:188 | the `group_id IN group_ids` filter keeps exactly the stored agents whose group is listed, each at most as often as stored |
| AgentService.InsertNewestFirst | src/backend/src/services/agent_service.py:188 | inserting into a newest-first list keeps it newest first and adds exactly that agent |
| AgentService.SortNewestFirst | src/backend/src/services/agent_service.py:188 | `order_by(created_at.desc())` gives a newest-first permutation of its input |
| AgentService.FindByGroup | src/backend/src/services/agent_service.py:173-190 | without group ids the result is empty; otherwise it is a permutation of the group's agents, newest first |
| AgentService.FindByGroupIsolates | src/backend/src/services/agent_service.py:173-190 | an agent is listed exactly when it is stored and belongs to one of the context's groups |
| AgentService.Get | src/backend/src/services/agent_service.py:49-59 | a returned agent is stored and has that id; none is returned exactly when no stored agent has it |
| AgentService.ExcludeNone | src/backend/src/services/agent_service.py:105-106 | the update data are exactly the given fields that are not None, with their values |
| AgentService.UpdateRows | src/backend/src/services/agent_service.py:111 | the rows with that id take the given columns and keep the others; every other row is unchanged |
| AgentService.UpdateRowsGet | src/backend/src/services/agent_service.py:111 | the agent read back after an update is the stored one with the given columns replaced; an unknown id stays unknown |
| AgentService.AgentStore.constructor | src/backend/src/services/agent_service.py:31-34 | a service session works over the agents already stored |
| AgentService.AgentStore.CreateWithGroup | src/backend/src/services/agent_service.py:154-171 | the stored agent has the input fields, the context's primary group id and email, and the assigned id and time; it is appended to the store |
| AgentService.AgentStore.UpdateWithPartialData | src/backend/src/services/agent_service.py:94-130 | with every field None the store is unchanged and the stored agent is read back; otherwise only the non-None fields are written. The agent returned is the one read back: found exactly when it was stored, with the given fields replaced |

## Left out

- The module `src/engines/crewai/crew_preparation.py` is not part of this model. The pipeline is modelled from the assertions of its tests.
- `prepare`'s own exception handler is not modelled. In the model every stage handles its own exceptions and validation is a total function, so nothing reaches that handler. The test that patches the validator to raise is not modelled.
- The crew library, kickoff, the LLM manager, the managed-environment detector and the API-key service are function parameters. So is the missing-data check. Only which branch they lead to and what is logged is modelled.
- Setting the placeholder OpenAI key in `os.environ` is a process-wide side effect. It is modelled as a flag handed to the crew constructor.
- The embedder configuration and its log line are not modelled, because the tests do not pin them down. Nor are `exc_info` details, or the other informational log lines of the stages.
- Async/await is not modelled: every operation is sequential.
- The thread safety of `queue.Queue` and of the singleton construction is not modelled (concurrency).
- CrewConfig.AgentKey: the positional key for an agent with neither name nor role is a parameter. Every agent in the tests has a name or a role. One comment in the crew-preparation tests (line 188) mentions `agent_1`, but the spec it annotates has a role. So the tests do not fix the positional key's format.
- CrewAssembly.SelectLlm: two branches are not fixed by any test, and the model chooses them. (1) A configured model fails, the environment is managed, and the platform default also fails: the stage still succeeds with no model, and the fallback line is logged. (2) No model is configured, the environment is managed, and the platform default fails: the crew stage fails with that error. The tests at lines 541-618 only cover successful fallbacks and the unmanaged environment.
- CrewPreparation.CrewPreparation.TaskAgent: which agent an unknown agent key falls back to is not stated. The model picks the map's first key, and the contracts only say the agent comes from the map.
- Context references are resolved by task id only.
- ExecutionLogsQueue.Process.EnqueueLog: errors other than `queue.Full` are not modelled. In the model nothing else can raise.
- ExecutionLogsQueue.Process.EnqueueLog: the queue's capacity is a constant of the process. The system creates its queue with none (0, unbounded), so there `enqueue_log` always succeeds.
- The clock (`datetime.now()` only) and the id and time the database assigns on create are parameters.
- `update_last_login` (a wall-clock write) is not modelled. The other `get_by_*` lookups of user_repository.py are outside this model, as are `get_user_roles` and `get_users_with_role`.
- UserRepository.Session.AssignRole: on the existing-assignment path the source returns `.scalars().first()` of an already consumed result. The model returns `None` there and states only that no row is added.
- UserRepository.ListWithFilters: the result order is not stated, because the query has no ORDER BY. Only the filter, the membership and the count are stated. `skip` and `limit` are natural numbers.
- UserRepository.GetUserPrivileges: the join may return a privilege once per granting path. The model lists each privilege row once, in storage order, and states membership only.
- AgentService.AgentStore.UpdateWithPartialData stands for both `update_with_partial_data` and `update_limited_fields`, whose bodies are the same. Their schemas differ only in which fields they admit.
- The internals of the agent repository are not part of this model. `update` is modelled as overwriting the given columns of the rows with that id, and `create` as appending a row.
- AgentService.AgentStore.CreateWithGroup: `group_id` and `created_by_email` are kept apart from the other columns.
- The `create` factory, `find_by_name`, `find_all`, `delete` and `delete_all` of agent_service.py are not modelled. They only forward to the repository.
- The ordering ties among agents with the same creation time are not stated. The model's insertion sort is stable, but the database order of ties is unspecified.
