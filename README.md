# Rust-AutoGPT agent core, modelled in Dafny

This project models the orchestration core of the "auto_gippity" agent system and the in-memory
store of the web server template it generates:

- **Agent record** (`AgentBasic`): the `BasicAgent` every agent role owns — objective, position,
  a mutable `AgentState` (`Discovery`, `Working`, `UnitTesting`, `Finished`) and a message memory.
- **Fact sheet** (`AgentTraits`): `ProjectScope` and the `FactSheet` that an agent updates in place.
- **Task-request protocol** (`General`): `extend_ai_function` builds one `"system"` message from a
  fixed template; `ai_task_request` calls the language-model gateway and retries exactly once with the
  identical message; `ai_task_request_decoded` decodes the reply, and a reply that does not decode
  aborts. The gateway is an oracle (`Gateway`): a script of call outcomes and a log of the message
  lists sent, whose length is the call counter.
- **Solutions-architect agent** (`AgentArchitect`): the `execute` loop. Discovery requests the project
  scope and, when external URLs are needed, the URL list; UnitTesting probes each URL in order,
  collects those whose probe answered with a status other than 200 (section 15.3.1 of RFC 9110), and
  rebuilds the list without them; every other state falls through to `Finished`. `Execute` is proved
  against `Run`, a function that iterates `Step` on a `Snapshot` of everything a run changes; the
  properties of a run are lemmas about `Run`. Every iteration lowers `Rank`, which is at most 2, so
  the loop turns at most twice.
- **Web template store** (`CodeTemplate`): `Database` with two keyed tables (`tasks`, `users`), its
  upsert, lookup, delete and listing operations, lookup by username, and the `login` decision.

Failures that the source turns into panics (`expect`) are returned as `Failure` values; as in the
source, nothing written before the failure is rolled back. Three behaviours of the code are modelled
as written:

- A probe that errs (no response, timeout) keeps its URL: only a response with a status other than
  200 excludes one (agent_architect.rs:116-123).
- `call_project_scope` itself sets the state to `Finished` (agent_architect.rs:50), so a URL request
  that aborts leaves the agent in `Finished`, not in `Discovery` (`RunUrlRequestFails`).
- The scope's "at least one of the bool results must be true" rule is only text in the prompt
  (aifunc_architect.rs:9); the code never checks it, so the model accepts any decoded scope.

## Model

| member | source | states |
|---|---|---|
| AgentBasic.BasicAgent.constructor | auto_gippity/src/models/agent_basic/basic_agent.rs:27-34 | a new agent keeps the given objective and position, starts in Discovery with an empty memory |
| AgentBasic.BasicAgent.UpdateState | auto_gippity/src/models/agent_basic/basic_agent.rs:37-39 | the state becomes the given one; objective, position and memory are unchanged |
| AgentBasic.BasicAgent.GetObjective | auto_gippity/src/models/agent_basic/basic_agent.rs:41-43 | returns the current objective and reads only |
| AgentBasic.BasicAgent.GetPosition | auto_gippity/src/models/agent_basic/basic_agent.rs:45-47 | returns the current position and reads only |
| AgentBasic.BasicAgent.GetState | auto_gippity/src/models/agent_basic/basic_agent.rs:49-51 | returns the current state and reads only |
| AgentBasic.BasicAgent.GetMemory | auto_gippity/src/models/agent_basic/basic_agent.rs:53-55 | returns the current memory and reads only |
| AgentTraits.FactSheet.constructor | auto_gippity/src/models/agents/agent_traits.rs:26-32 | a fact sheet as a run starts: the description, every other field empty |
| General.ExtendAiFunction | auto_gippity/src/helpers/general.rs:35-52 | the message always has role "system" and is exactly as long as the template with both values in it |
| General.ExtendAiFunctionRoundTrip | auto_gippity/src/helpers/general.rs:36-45 | the AI function applied to exactly `func_input`, and `func_input` itself, are embedded verbatim: both read back from the message |
| General.Gateway.CallGpt | auto_gippity/src/apis/call_request.rs:8 | a gateway call answers the next scripted outcome and logs the message list it was given |
| General.TaskReply | auto_gippity/src/helpers/general.rs:68-77 | a request succeeds iff one of its two attempts does; the first success's text is returned unchanged; otherwise it aborts |
| General.TaskCalls | auto_gippity/src/helpers/general.rs:68-77 | one call when the first succeeds, two otherwise, never a third |
| General.Attempts | auto_gippity/src/helpers/general.rs:69-74 | every attempt sends the same one-message list |
| General.DecodedReply | auto_gippity/src/helpers/general.rs:87-91 | the decoded value when the reply decodes; a transport abort passes through; a reply that does not decode aborts with no default |
| General.AiTaskRequest | auto_gippity/src/helpers/general.rs:55-78 | returns `TaskReply` and logs one or two identical messages built from `msg_context` |
| General.AiTaskRequestDecoded | auto_gippity/src/helpers/general.rs:81-92 | returns `DecodedReply` with the same calls as the plain request |
| AgentArchitect.Failing | auto_gippity/src/models/agents/agent_architect.rs:98-124 | the collected URLs are at most as many as the URLs probed |
| AgentArchitect.FailingMembers | auto_gippity/src/models/agents/agent_architect.rs:116-123 | a URL is collected iff one of its probes answered with a status other than 200 |
| AgentArchitect.HealthyProbesExcludeNothing | auto_gippity/src/models/agents/agent_architect.rs:116-121 | probes that all answered 200 or erred collect nothing |
| AgentArchitect.CollectExcluded | auto_gippity/src/models/agents/agent_architect.rs:98-124 | the probing loop collects exactly `Failing` of the URLs and probes |
| AgentArchitect.Without | auto_gippity/src/models/agents/agent_architect.rs:128-135 | the rebuilt list holds exactly the URLs not excluded and is no longer than the original |
| AgentArchitect.WithoutKeepsOrder | auto_gippity/src/models/agents/agent_architect.rs:128-135 | survivors keep their relative order: the result is a subsequence of the list |
| AgentArchitect.WithoutCounts | auto_gippity/src/models/agents/agent_architect.rs:133 | removal is by value: every copy of an excluded URL goes, every copy of the others stays |
| AgentArchitect.WithoutIdempotent | auto_gippity/src/models/agents/agent_architect.rs:128-136 | filtering again by the same exclusions changes nothing |
| AgentArchitect.WithoutNothingExcluded | auto_gippity/src/models/agents/agent_architect.rs:127-137 | when nothing in the list is excluded the list is exactly as before |
| AgentArchitect.SurvivorsOfProbing | auto_gippity/src/models/agents/agent_architect.rs:110-137 | a URL survives UnitTesting iff none of its probes answered with a status other than 200; an erring probe never excludes |
| AgentArchitect.Rank | auto_gippity/src/models/agents/agent_architect.rs:85 | the loop measure is at most 2 and zero exactly at Finished; with `Step` it bounds the loop to two iterations |
| AgentArchitect.DiscoveryStep | auto_gippity/src/models/agents/agent_architect.rs:87-95 | a Discovery iteration that does not abort ends in UnitTesting or Finished |
| AgentArchitect.UnitTestingStep | auto_gippity/src/models/agents/agent_architect.rs:97-141 | a UnitTesting iteration aborts exactly when there is no URL list; otherwise it ends in Finished; it makes no gateway call and leaves the scope |
| AgentArchitect.Step | auto_gippity/src/models/agents/agent_architect.rs:86-147 | every iteration that does not abort strictly lowers the loop measure, so a run makes at most two iterations; the default arm (Working) never aborts and only sets Finished |
| AgentArchitect.Run | auto_gippity/src/models/agents/agent_architect.rs:85-150 | a run that does not abort ends in Finished; only Discovery calls the gateway, at most four times |
| AgentArchitect.RunWithoutExternalUrls | auto_gippity/src/models/agents/agent_architect.rs:88-94 | a scope without external URLs: Finished, the scope stored, the URL list untouched, one scope request |
| AgentArchitect.RunWithExternalUrls | auto_gippity/src/models/agents/agent_architect.rs:88-140 | a scope with external URLs: the list is requested with the project description, stored, filtered in order, then Finished |
| AgentArchitect.RunScopeRequestFails | auto_gippity/src/models/agents/agent_architect.rs:38-52 | a failed scope request aborts in Discovery with scope and URLs unchanged |
| AgentArchitect.RunUrlRequestFails | auto_gippity/src/models/agents/agent_architect.rs:49-65 | a failed URL request aborts with the scope stored and the state already Finished |
| AgentArchitect.UnitTestingHealthyIsNoOp | auto_gippity/src/models/agents/agent_architect.rs:127-140 | UnitTesting over a list with no probe answering other than 200 changes only the state, to Finished |
| AgentArchitect.UnitTestingFilterIsIdempotent | auto_gippity/src/models/agents/agent_architect.rs:127-137 | the list UnitTesting leaves is unchanged by filtering it again |
| AgentArchitect.FilterKeepsOrderExample | auto_gippity/src/models/agents/agent_architect.rs:110-137 | probes 200, 404, 200, 500, 200 on u1..u5 leave exactly u1, u3, u5 |
| AgentArchitect.TodoAppScenario | auto_gippity/src/models/agents/agent_architect.rs:85-150 | a scope needing no external data ends Finished with that scope, no URL list and one call |
| AgentArchitect.ExternalDataScenario | auto_gippity/src/models/agents/agent_architect.rs:85-150 | a URL probed 500 is dropped and the one probed 200 kept |
| AgentArchitect.AgentSolutionArchitect.constructor | auto_gippity/src/models/agents/agent_architect.rs:26-35 | Discovery, empty memory, position "Solutions Architect", the fixed objective |
| AgentArchitect.AgentSolutionArchitect.GetAttributesFromAgent | auto_gippity/src/models/agents/agent_architect.rs:77-79 | returns the agent's own record |
| AgentArchitect.AgentSolutionArchitect.CallProjectScope | auto_gippity/src/models/agents/agent_architect.rs:38-52 | on success the scope is stored as decoded and the state set to Finished; on failure neither changes |
| AgentArchitect.AgentSolutionArchitect.CallDetermineExternalUrls | auto_gippity/src/models/agents/agent_architect.rs:55-66 | on success the decoded list is stored and the state set to UnitTesting; the request uses the given context |
| AgentArchitect.AgentSolutionArchitect.Execute | auto_gippity/src/models/agents/agent_architect.rs:82-151 | the new state, scope, URLs and gateway log are those of `Run`; the loop decreases `Rank`; description, backend code and endpoint schema never change |
| CodeTemplate.LoginDecision | web_template/src/code_template.rs:146-154 | accepted iff a user was found with an equal password; unknown user and wrong password get the same rejection |
| CodeTemplate.Database.constructor | web_template/src/code_template.rs:36-41 | both tables empty |
| CodeTemplate.Database.Get | web_template/src/code_template.rs:48-50 | the task stored under the id, None iff absent |
| CodeTemplate.Database.Insert | web_template/src/code_template.rs:44-46 | afterwards `Get(t.id) == Some(t)`; other ids and all users unchanged |
| CodeTemplate.Database.Update | web_template/src/code_template.rs:60-62 | the same upsert as `Insert` |
| CodeTemplate.Database.Delete | web_template/src/code_template.rs:56-58 | afterwards `Get(id) == None`; absent id changes nothing; other tasks and all users unchanged |
| CodeTemplate.Database.InsertUser | web_template/src/code_template.rs:65-67 | the user stored under its id, overwriting; tasks unchanged |
| CodeTemplate.Database.GetAll | web_template/src/code_template.rs:52-54 | every stored task exactly once, in no promised order |
| CodeTemplate.Database.GetUserByName | web_template/src/code_template.rs:69-71 | a stored user with that name, None iff there is none |
| CodeTemplate.Database.Login | web_template/src/code_template.rs:144-155 | the answer is `LoginDecision` on the user `get_user_by_name` finds: "logged in!" only for a stored user with that name and password, accepted whenever every user of that name has that password, the shared rejection message otherwise |

## Left out

- Panics: every `expect` in the core (a failed or undecodable gateway reply, a missing URL list) aborts the process in the source; the model returns a `Failure` value instead, with nothing written before it rolled back.
- The gateway client `call_gpt` (auto_gippity/src/apis/call_request.rs): HTTPS, the API key from the environment, the bearer header and the sampling temperature. The model replaces it by a scripted oracle; a call past the end of the script is a transport error.
- `check_status_code` and the five-second HTTP client: the probe results are an input sequence, one per URL in probing order; a URL without a scripted result is probed as an error. The `unwrap` on building the client is not modelled.
- The file helpers and the hard-coded paths of general.rs, and `save_to_file`/`load_from_file` of the web template: file I/O.
- Logging (`PrintCommand`, `println!`) and therefore the `agent_position` and `agent_operation` parameters of the task requests, which only feed the log line.
- `async`/`await`: every call is modelled as completing in sequence.
- JSON decoding with serde: two abstract decoders, one for the scope and one for the URL list.
- The prompt templates of aifunc_architect.rs: opaque functions from the input to the prompt text.
- The terminal UI of command_line.rs, the procedural macros, `main`, the threads demo.
- The web server plumbing: the actix handlers' HTTP responses other than the login decision, the `register` handler (an `insert_user` followed by a save), the `Mutex` in `AppState`, CORS and the server bootstrap.
- The agent's record is an object referenced by the architect rather than a field it owns; nothing else refers to it.
- `RouteObject`'s JSON values are kept as JSON text; the core never reads or writes them.
- Status codes are unbounded naturals rather than `u16`.
