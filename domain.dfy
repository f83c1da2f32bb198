/**
 * The Aura agent of app/domain/agent.py: a langgraph workflow with the single
 * node AGENT, whose step sends the user-query prompt built from the last
 * message to the chat model and appends the reply, and the `ask` entry point
 * that seeds the state, runs the workflow and returns the last message.
 */
module Domain {
  import opened Outcomes
  import opened Prompts
  import AgentModels

  /** `Nodes`: the names of the workflow's nodes. */
  datatype Nodes = Agent {
    /** The member's string value. */
    function Value(): string {
      "Aura agent"
    }
  }

  /** Where an edge leads: a node, or langgraph's `END`. */
  datatype Target = To(node: Nodes) | End

  /** A compiled workflow: its nodes, the outgoing edge of each node that has
      one, and the entry node. */
  datatype Graph = Graph(nodes: set<Nodes>, edges: map<Nodes, Target>, entry: Nodes)

  /** Every edge starts and ends at a declared node (or `END`), and the entry
      node is declared. */
  predicate WellFormed(g: Graph) {
    && g.entry in g.nodes
    && (forall n :: n in g.edges ==> n in g.nodes)
    && (forall n :: n in g.edges && g.edges[n].To? ==> g.edges[n].node in g.nodes)
  }

  /** Where the run goes after node `n`; a node without an outgoing edge ends the run. */
  function Next(g: Graph, n: Nodes): Target {
    if n in g.edges then g.edges[n] else End
  }

  /** The graph `Aura.__init__` declares: node AGENT, edge AGENT -> END, entry AGENT. */
  function AuraGraph(): Graph {
    Graph({Agent}, map[Agent := End], Agent)
  }

  /** The builder calls of `Aura.__init__` on a langgraph `StateGraph`. */
  class GraphBuilder {
    var nodes: set<Nodes>
    var edges: map<Nodes, Target>
    var entry: Option<Nodes>

    constructor ()
      ensures nodes == {} && edges == map[] && entry == None
    {
      nodes := {};
      edges := map[];
      entry := None;
    }

    /** `add_node`. */
    method AddNode(n: Nodes)
      modifies this
      ensures nodes == old(nodes) + {n}
      ensures edges == old(edges) && entry == old(entry)
    {
      nodes := nodes + {n};
    }

    /** `add_edge`. */
    method AddEdge(from: Nodes, to: Target)
      modifies this
      ensures edges == old(edges)[from := to]
      ensures nodes == old(nodes) && entry == old(entry)
    {
      edges := edges[from := to];
    }

    /** `set_entry_point`. */
    method SetEntryPoint(n: Nodes)
      modifies this
      ensures entry == Some(n)
      ensures nodes == old(nodes) && edges == old(edges)
    {
      entry := Some(n);
    }

    /** `compile`: the declared table, provided an entry point is set and the
        table is well formed. */
    function Compile(): (g: Option<Graph>)
      reads this
      ensures g.Some? <==> entry.Some? && WellFormed(Graph(nodes, edges, entry.value))
      ensures g.Some? ==> g.value.nodes == nodes && g.value.edges == edges && Some(g.value.entry) == entry
    {
      match entry
      case None => None
      case Some(e) => if WellFormed(Graph(nodes, edges, e)) then Some(Graph(nodes, edges, e)) else None
    }
  }

  /** `AgentState`: the langgraph `MessagesState`, whose message list the
      node extends in place. */
  class AgentState {
    var messages: seq<Message>

    constructor (messages: seq<Message>)
      ensures this.messages == messages
    {
      this.messages := messages;
    }
  }

  /** The chat model's `invoke`: a reply to a prompt, or the reason it failed. */
  type ChatModel = seq<Message> -> Result<Message, string>

  /** Why a run stops without reaching `END`: `[-1]` on an empty message list,
      a failing model call, or langgraph's recursion limit. */
  datatype AgentError = EmptyMessages | ModelError(reason: string) | RecursionLimit

  /** langgraph's default recursion limit: the most node executions one run may make. */
  const RECURSION_LIMIT: nat := 25

  /** What `agent_node` does to the message list. */
  function AgentStep(pb: PromptBuilder, llm: ChatModel, msgs: seq<Message>): Result<seq<Message>, AgentError> {
    if |msgs| == 0 then Failure(EmptyMessages)
    else
      match llm(UserQueryPrompt(pb, msgs[|msgs| - 1].content))
      case Success(reply) => Success(msgs + [reply])
      case Failure(e) => Failure(ModelError(e))
  }

  /** The step of the node named `n`. */
  function NodeStep(pb: PromptBuilder, llm: ChatModel, n: Nodes, msgs: seq<Message>): Result<seq<Message>, AgentError> {
    match n
    case Agent => AgentStep(pb, llm, msgs)
  }

  /** A run of graph `g` from `at` with at most `budget` node executions. */
  function Run(pb: PromptBuilder, llm: ChatModel, g: Graph, at: Target, msgs: seq<Message>, budget: nat)
    : Result<seq<Message>, AgentError>
    decreases budget
  {
    match at
    case End => Success(msgs)
    case To(n) =>
      if budget == 0 then Failure(RecursionLimit)
      else
        match NodeStep(pb, llm, n, msgs)
        case Failure(e) => Failure(e)
        case Success(next) => Run(pb, llm, g, Next(g, n), next, budget - 1)
  }

  /** How many nodes lie on the path from `at` to `END`, if `END` is within `budget` steps. */
  function PathLength(g: Graph, at: Target, budget: nat): Option<nat>
    decreases budget
  {
    match at
    case End => Some(0)
    case To(n) =>
      if budget == 0 then None
      else
        match PathLength(g, Next(g, n), budget - 1)
        case None => None
        case Some(k) => Some(k + 1)
  }

  /** `agent_node` succeeds exactly when there is a last message and the model
      answers the prompt built from it; it then appends the reply, keeping
      every earlier message. */
  lemma AgentStepAppendsReply(pb: PromptBuilder, llm: ChatModel, msgs: seq<Message>)
    ensures AgentStep(pb, llm, msgs).Success? <==>
              |msgs| > 0 && llm(UserQueryPrompt(pb, msgs[|msgs| - 1].content)).Success?
    ensures AgentStep(pb, llm, msgs).Success? ==>
              var out := AgentStep(pb, llm, msgs).value;
              && |out| == |msgs| + 1
              && out[..|msgs|] == msgs
              && out[|msgs|] == llm(UserQueryPrompt(pb, msgs[|msgs| - 1].content)).value
  {
  }

  /** A successful run appends exactly one message per node on the path to
      `END` and leaves the messages it started with unchanged. */
  lemma {:induction false} RunAppendsOnePerNode(pb: PromptBuilder, llm: ChatModel, g: Graph, at: Target, msgs: seq<Message>, budget: nat)
    ensures Run(pb, llm, g, at, msgs, budget).Success? ==>
              var out := Run(pb, llm, g, at, msgs, budget).value;
              && |out| >= |msgs|
              && out[..|msgs|] == msgs
              && PathLength(g, at, budget) == Some(|out| - |msgs|)
    decreases budget
  {
    match at
    case End =>
    case To(n) =>
      if budget > 0 && NodeStep(pb, llm, n, msgs).Success? {
        var next := NodeStep(pb, llm, n, msgs).value;
        AgentStepAppendsReply(pb, llm, msgs);
        RunAppendsOnePerNode(pb, llm, g, Next(g, n), next, budget - 1);
        if Run(pb, llm, g, at, msgs, budget).Success? {
          var out := Run(pb, llm, g, at, msgs, budget).value;
          assert out[..|msgs|] == out[..|next|][..|msgs|];
        }
      }
  }

  /** A node whose edge leads back to itself never reaches `END`: the run
      fails (at the latest on the recursion limit) rather than looping. */
  lemma {:induction false} SelfLoopNeverEnds(pb: PromptBuilder, llm: ChatModel, g: Graph, msgs: seq<Message>, budget: nat)
    requires Next(g, Agent) == To(Agent)
    ensures Run(pb, llm, g, To(Agent), msgs, budget).Failure?
    ensures PathLength(g, To(Agent), budget).None?
    decreases budget
  {
    if budget > 0 {
      SelfLoopNeverEnds(pb, llm, g, msgs, budget - 1);
      if NodeStep(pb, llm, Agent, msgs).Success? {
        SelfLoopNeverEnds(pb, llm, g, NodeStep(pb, llm, Agent, msgs).value, budget - 1);
      }
    }
  }

  /** The Aura graph is well formed and has one node on its only path, so a
      run executes `agent_node` exactly once and then reaches `END`. */
  lemma AuraGraphRunsAgentOnce(pb: PromptBuilder, llm: ChatModel, msgs: seq<Message>)
    ensures WellFormed(AuraGraph())
    ensures AuraGraph().nodes == {Agent} && AuraGraph().entry.Value() == "Aura agent"
    ensures PathLength(AuraGraph(), To(AuraGraph().entry), RECURSION_LIMIT) == Some(1)
    ensures Run(pb, llm, AuraGraph(), To(AuraGraph().entry), msgs, RECURSION_LIMIT) == AgentStep(pb, llm, msgs)
  {
  }

  /** What `ask` answers, as a value. */
  datatype AskOutcome = Answered(answer: string) | Failed(message: string)

  /** The one error `ask` raises, whatever went wrong. */
  const ASK_ERROR: string := "A server error occurred while answering the question. Contact the administrator."

  /** `ask`: seed the state with the user-query prompt, run the workflow and
      answer with the content of the last message; any failure becomes
      `ASK_ERROR`. */
  function AskOutcomeOf(pb: PromptBuilder, llm: ChatModel, g: Graph, request: AgentModels.AgentRequest): AskOutcome {
    match Run(pb, llm, g, To(g.entry), UserQueryPrompt(pb, request.request), RECURSION_LIMIT)
    case Failure(_) => Failed(ASK_ERROR)
    case Success(msgs) => if |msgs| == 0 then Failed(ASK_ERROR) else Answered(msgs[|msgs| - 1].content)
  }

  /** On the Aura graph the node re-sends exactly the seeded prompt (stripping
      an already stripped query changes nothing), so `ask` answers with the
      model's reply to `[system template, stripped request]`, or fails with
      `ASK_ERROR` when the model fails. */
  lemma AskAnswersWithReply(pb: PromptBuilder, llm: ChatModel, request: AgentModels.AgentRequest)
    ensures var seed := UserQueryPrompt(pb, request.request);
      && UserQueryPrompt(pb, seed[|seed| - 1].content) == seed
      && AskOutcomeOf(pb, llm, AuraGraph(), request) ==
           match llm(seed)
           case Success(reply) => Answered(reply.content)
           case Failure(_) => Failed(ASK_ERROR)
  {
    var seed := UserQueryPrompt(pb, request.request);
    UserQueryPromptSpec(pb, request.request);
    AuraGraphRunsAgentOnce(pb, llm, seed);
  }

  /** The `Aura` agent: its prompt builder, chat model and compiled workflow. */
  class Aura {
    const promptBuilder: PromptBuilder
    const llm: ChatModel
    const workflow: Graph

    /** The workflow is the one `__init__` declares. */
    predicate Valid() {
      workflow == AuraGraph()
    }

    /** `Aura.__init__`, given the built prompt builder and chat model. */
    constructor (promptBuilder: PromptBuilder, llm: ChatModel)
      ensures this.promptBuilder == promptBuilder && this.llm == llm
      ensures Valid()
    {
      var builder := new GraphBuilder();
      builder.AddNode(Agent);
      builder.AddEdge(Agent, End);
      builder.SetEntryPoint(Agent);
      assert Graph(builder.nodes, builder.edges, Agent) == AuraGraph();
      assert WellFormed(AuraGraph());
      var compiled := builder.Compile();
      this.promptBuilder := promptBuilder;
      this.llm := llm;
      this.workflow := compiled.value;
    }

    /** `agent_node`: extends the state's message list in place with the
        model's reply to the user-query prompt built from the last message,
        and returns the same state object. */
    method AgentNode(state: AgentState) returns (r: Result<AgentState, AgentError>)
      modifies state
      ensures var step := AgentStep(promptBuilder, llm, old(state.messages));
        && (r.Success? <==> step.Success?)
        && (r.Success? ==> r.value == state && state.messages == step.value)
        && (r.Failure? ==> r.error == step.error && state.messages == old(state.messages))
    {
      if |state.messages| == 0 {
        return Failure(EmptyMessages);
      }
      var last := state.messages[|state.messages| - 1];
      var response := llm(UserQueryPrompt(promptBuilder, last.content));
      match response {
        case Failure(e) =>
          return Failure(ModelError(e));
        case Success(reply) =>
          state.messages := state.messages + [reply];
          return Success(state);
      }
    }

    /** `workflow.invoke(state)`: the input's messages are copied into a new
        state, then from the entry node the current node runs and its edge is
        followed until `END`, failing past the recursion limit. The caller's
        state is left as it was; the result is the new state. */
    method Invoke(state: AgentState) returns (r: Result<AgentState, AgentError>)
      ensures state.messages == old(state.messages)
      ensures var run := Run(promptBuilder, llm, workflow, To(workflow.entry), state.messages, RECURSION_LIMIT);
        && (r.Success? <==> run.Success?)
        && (r.Success? ==> fresh(r.value) && r.value.messages == run.value)
        && (r.Failure? ==> r.error == run.error)
    {
      var channel := new AgentState(state.messages);
      var at := To(workflow.entry);
      var budget := RECURSION_LIMIT;
      while at.To?
        invariant fresh(channel)
        invariant state.messages == old(state.messages)
        invariant Run(promptBuilder, llm, workflow, at, channel.messages, budget)
               == Run(promptBuilder, llm, workflow, To(workflow.entry), state.messages, RECURSION_LIMIT)
        decreases budget
      {
        if budget == 0 {
          return Failure(RecursionLimit);
        }
        var step: Result<AgentState, AgentError>;
        match at.node {
          case Agent => step := AgentNode(channel);
        }
        if step.Failure? {
          return Failure(step.error);
        }
        at := Next(workflow, at.node);
        budget := budget - 1;
      }
      return Success(channel);
    }

    /** `ask`, answering with the text of the last message. */
    method Ask(request: AgentModels.AgentRequest) returns (r: AskOutcome)
      ensures r == AskOutcomeOf(promptBuilder, llm, workflow, request)
      ensures Valid() ==>
        var seed := UserQueryPrompt(promptBuilder, request.request);
        r == match llm(seed)
             case Success(reply) => Answered(reply.content)
             case Failure(_) => Failed(ASK_ERROR)
    {
      var seed := UserQueryPrompt(promptBuilder, request.request);
      var state := new AgentState(seed);
      var run := Invoke(state);
      ghost var spec := Run(promptBuilder, llm, workflow, To(workflow.entry), seed, RECURSION_LIMIT);
      assert run.Success? ==> spec == Success(run.value.messages);
      match run {
        case Failure(_) =>
          r := Failed(ASK_ERROR);
        case Success(final) =>
          var messages := final.messages;
          if |messages| == 0 {
            r := Failed(ASK_ERROR);
          } else {
            r := Answered(messages[|messages| - 1].content);
          }
      }
      assert r == AskOutcomeOf(promptBuilder, llm, workflow, request);
      if Valid() {
        AskAnswersWithReply(promptBuilder, llm, request);
      }
    }

    /** `ask` as written: the answer is passed as `AgentResponse(response=...)`,
        a keyword naming neither declared field, so validation fails and the
        handler turns that into `ASK_ERROR` even when the model answered. */
    method AskAsWritten(request: AgentModels.AgentRequest) returns (r: Result<AgentModels.AgentResponse, string>)
      ensures r == Failure(ASK_ERROR)
    {
      var state := new AgentState(UserQueryPrompt(promptBuilder, request.request));
      var run := Invoke(state);
      if run.Failure? {
        return Failure(ASK_ERROR);
      }
      match AgentModels.ValidateResponse(AgentModels.ResponseFields(None, None)) {
        case Failure(_) =>
          r := Failure(ASK_ERROR);
        case Success(response) =>
          r := Success(response);
      }
    }
  }
}
