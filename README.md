# Aura agent core, modelled in Dafny

Aura is a question-answering agent meant to be served over HTTP. It is not yet
wired to a route: the only agent route (app/api/routes/agent.py:18-31) is a stub
that never constructs the agent. Its core has three parts:

- The prompt builder (`app/models/prompts.py`). It loads two template files,
  wraps each as a system message and assembles prompts:
  - the greeting prompt, which cuts the user's query to its first ten words;
  - the user-query prompt, which pairs the system template with the stripped query.
- The agent (`app/domain/agent.py`). A langgraph workflow with the single node
  "Aura agent". The node sends the user-query prompt built from the last
  message to the chat model and appends the reply. `ask` seeds the state, runs
  the workflow and is meant to answer with the last message. As written it
  always fails (see "## Findings"). Every failure becomes one fixed server
  error.
- The response records (`app/models/agent.py`). A two-valued response type, a
  message detail, and the Server-Sent Events framing of a response (section 9.2
  of the WHATWG HTML Living Standard).

The project has five modules, one per file:

- `Outcomes` (`outcomes.dfy`): `Option` and `Result`.
- `Text` (`text.dfy`): the Python string operations the prompts rely on. These
  are `str.isspace` as a code-point predicate, `strip`, whitespace `split`,
  `" ".join` and the slice `[:n]`, with their properties.
- `Prompts` (`prompts.dfy`): `prompts.py`.
- `AgentModels` (`agent_models.dfy`): `models/agent.py` and the SSE framing.
  It includes a reader of the first event of a stream, following the
  standard's interpretation of `data` lines.
- `Domain` (`domain.dfy`): `domain/agent.py`. It has four parts:
  - a `GraphBuilder` class for the builder calls;
  - the compiled graph as a static table, run by a step-bounded loop;
  - an `AgentState` class whose message list `agent_node` extends in place;
  - the `Aura` class with `AgentNode`, `Invoke` and `Ask`.

The chat model is a function parameter `seq<Message> -> Result<Message, string>`,
so it may fail. Reading a template file is a function parameter
`string -> Option<string>`, where `None` means the file was not found.
pydantic's `model_dump_json` is an opaque `AgentResponse -> string`.

## Model

| member | source | states |
|---|---|---|
| Prompts.NewPromptBuilder | app/models/prompts.py:15-35 | construction succeeds iff both template files can be read; a missing greeting file is reported first, with its path, then a missing system file, with its path; on success both base prompts are system messages holding the file texts unchanged |
| Prompts.GreetingPromptSpec | app/models/prompts.py:63-76 | the greeting prompt is exactly two messages: the greeting template, then a human message "The first 10 words of the user's query are: " followed by the truncated query, saying 10 whatever the query's length |
| Prompts.DecimalStringReadsBack | app/models/prompts.py:68 | the f-string rendering of a non-negative integer is a non-empty string of decimal digits that reads back as the integer and has no leading zero |
| Prompts.DecimalTen | app/models/prompts.py:64-68 | the word limit 10 renders in the f-string as the two characters "10" |
| Prompts.TruncateQueryTokens | app/models/prompts.py:64-65 | the truncated query's tokens are exactly the first min(10, n) whitespace-separated tokens of the query, in order, so there are at most 10 |
| Prompts.TruncateQueryLayout | app/models/prompts.py:65 | the truncated query has no outer whitespace and one space between tokens; stripping or truncating it again changes nothing |
| Prompts.TruncateQueryOfJoin | app/models/prompts.py:65 | a query already written as single-spaced tokens keeps its first ten tokens, or all of them when there are ten or fewer |
| Prompts.UserQueryPromptSpec | app/models/prompts.py:78-98 | the user-query prompt is the system template followed by a human message holding the query without outer whitespace: a contiguous slice with only whitespace cut on either side; building the prompt again from that content gives the same prompt |
| Text.StripSpec | app/models/prompts.py:65 | `strip` leaves a string with no whitespace at either end, equal to the slice of the input between a leading and a trailing whitespace run |
| Text.StripCharacterisation | app/models/prompts.py:93 | stripping whitespace + s + whitespace, with s having no outer whitespace, gives exactly s |
| Text.StripIdempotent | app/models/prompts.py:93 | stripping twice is stripping once |
| Text.TrimStartSuffix | app/models/prompts.py:93 | removing leading whitespace drops exactly a whitespace prefix |
| Text.TrimEndPrefix | app/models/prompts.py:93 | removing trailing whitespace keeps a prefix and drops only whitespace |
| Text.SplitWords | app/models/prompts.py:65 | every token `split()` returns is non-empty and has no whitespace |
| Text.SplitStrip | app/models/prompts.py:65 | splitting a stripped string gives the same tokens as splitting the original |
| Text.SplitIgnoresTrailingSpace | app/models/prompts.py:65 | trailing whitespace adds no token |
| Text.SplitWordSpace | app/models/prompts.py:65 | a token followed by a space splits into that token, then the split of the rest |
| Text.SplitJoin | app/models/prompts.py:65 | splitting the single-space join of tokens gives those tokens back |
| Text.JoinSingleSpaced | app/models/prompts.py:65 | `" ".join` of tokens has one space between tokens and no whitespace at either end |
| Text.Prefix | app/models/prompts.py:65 | the slice `[:n]` has min(n, length) elements and is a prefix of the list |
| AgentModels.ResponseTypeValues | app/models/agent.py:14-20 | the response type has exactly two members, with values "error" and "message"; looking a member up by its value finds it, and only those two strings are found |
| AgentModels.ValidateResponse | app/models/agent.py:35-41 | a response is built iff both `type` and `detail` are given, and it then holds exactly those two values |
| AgentModels.ToStreamResponseData | app/models/agent.py:43-48 | the stream frame starts with "data: ", ends with the blank-line terminator "\n\n" and is 8 characters longer than the JSON |
| AgentModels.FramePayloadRoundTrip | app/models/agent.py:48 | removing the 6-character prefix and 2-character terminator recovers the JSON exactly; any string with such a payload is exactly the frame of it |
| AgentModels.FrameIsOneEvent | app/models/agent.py:48 | an SSE client reading a frame whose JSON has no raw line break receives exactly that JSON as the data of the first event |
| Domain.GraphBuilder.AddNode | app/domain/agent.py:55 | declares the node and changes nothing else |
| Domain.GraphBuilder.AddEdge | app/domain/agent.py:57 | sets the outgoing edge of the source node and changes nothing else |
| Domain.GraphBuilder.SetEntryPoint | app/domain/agent.py:59 | sets the entry node and changes nothing else |
| Domain.GraphBuilder.Compile | app/domain/agent.py:61 | compiling succeeds iff an entry point is set and every edge and the entry refer to declared nodes; the result is the declared table |
| Domain.Aura.constructor | app/domain/agent.py:53-65 | the builder calls yield the graph with one node "Aura agent", the edge to END and entry "Aura agent"; the prompt builder and model are stored |
| Domain.AuraGraphRunsAgentOnce | app/domain/agent.py:26-59 | the Aura graph is well formed, its only node is named "Aura agent", one node lies on the path to END, and a run is exactly one `agent_node` step |
| Domain.Aura.AgentNode | app/domain/agent.py:106-125 | fails on an empty message list or a failing model; otherwise appends the model's reply to the user-query prompt built from the last message, in place, and returns the same state object; on failure the messages are unchanged |
| Domain.AgentStepAppendsReply | app/domain/agent.py:117-123 | the step succeeds iff there is a last message and the model answers the prompt built from it; the list then grows by one, earlier messages unchanged, and the new last message is the reply |
| Domain.Aura.Invoke | app/domain/agent.py:143 | the input's messages are copied into a new state and the run loop from the entry node yields what the run specification does, within langgraph's recursion limit of 25 steps; on success the result is that new state, and the caller's state keeps its messages |
| Domain.RunAppendsOnePerNode | app/domain/agent.py:143 | a successful run keeps the starting messages and appends exactly one message per node on the path to END |
| Domain.SelfLoopNeverEnds | app/domain/agent.py:143 | a node whose edge leads back to itself never reaches END: the run fails at the recursion limit |
| Domain.AskAnswersWithReply | app/domain/agent.py:117-149 | the node sends back exactly the seeded prompt, because stripping is idempotent; `ask` answers with the model's reply to `[system template, stripped request]`, or fails with the fixed server error when the model fails |
| Domain.Aura.Ask | app/domain/agent.py:127-149 | `ask` seeds the state with the user-query prompt, runs the workflow and answers with the last message's content, any failure becoming the fixed server error; on the Aura graph this is the model's reply to the seeded prompt |
| Domain.Aura.AskAsWritten | app/domain/agent.py:142-149 | as written, `ask` always fails with the fixed server error, because the response it builds is rejected by validation |

## Left out

- Reading the template files is the parameter `readText`. Only `FileNotFoundError` is mapped. Other read errors, such as permissions or bad UTF-8, are not modelled because they propagate unchanged.
- `Aura.__init__` passes one path to the two-argument `PromptBuilder` constructor (app/domain/agent.py:44), which raises a `TypeError` when called. `Domain.Aura.constructor` takes an already built `PromptBuilder` instead.
- `init_chat_model` and the model's configuration are left out: the chat model is an abstract, possibly failing function, and its non-determinism is not modelled.
- The getters `get_prompt_builder`, `get_llm` and `get_workflow` are field reads in the model.
- langgraph internals are left out:
  - state channels and the `add_messages` reducer, which merges by message id;
  - configurable recursion limits;
  - fan-out edges, where a node has several outgoing edges (the table holds one edge per node).
- Message content is always text. The list-of-parts content form is not modelled.
- `model_dump_json` is opaque. `FrameIsOneEvent` assumes its output has no raw line break, which JSON escaping guarantees.
- AgentModels.FirstEventData reads only `data` fields of the first event. Other SSE fields (`event`, `id`, `retry`) and a leading byte-order mark are not modelled.
- The HTTP routes, API-key check, configuration loading and application wiring are outside the core.
- Concurrency, as with several requests sharing one `Aura`, is not modelled.

## Findings

| source | as written | input that shows it | evidently intended | confidence | as-written member | corrected member |
|---|---|---|---|---|---|---|
| app/domain/agent.py:144 | `ask` returns `AgentResponse(response=...)`, but `AgentResponse` declares only the required fields `type` and `detail` (app/models/agent.py:40-41). Validation raises, and the handler turns this into the server error even when the model answered. | any request for which the chat model returns a reply | answer with the content of the last message | not executed | Domain.Aura.AskAsWritten | Domain.Aura.Ask |
