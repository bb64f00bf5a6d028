/** The supervisor / specialist routing graph. Language-model replies, the retriever and the
    tool loop are inputs (`Oracles`); the graph runtime is modelled only as far as it
    decides the order of nodes and merges each node's returned keys into the state. */
module MultiAgentGraph {
  import opened Wrappers
  import opened Text

  datatype Message = Human(content: string) | AI(content: string)

  /** The caller's conversation state is passed through unchanged; its values are opaque. */
  type ConversationState = map<string, string>

  /** `ChessAgentState`. */
  datatype AgentState = AgentState(
    messages: seq<Message>,
    currentAgent: string,
    ragSources: nat,
    conversationState: ConversationState,
    apiKeys: map<string, string>)

  /** The dict a node returns: only the keys it sets. */
  datatype Update = Update(
    messages: Option<seq<Message>>,
    currentAgent: Option<string>,
    ragSources: Option<nat>,
    conversationState: Option<ConversationState>,
    apiKeys: Option<map<string, string>>)

  /** Merging a node's returned keys into the state: each returned key overwrites its value
      (no reducers are declared on `ChessAgentState`), the other keys keep theirs. */
  function Apply(s: AgentState, u: Update): AgentState {
    AgentState(
      u.messages.GetOr(s.messages),
      u.currentAgent.GetOr(s.currentAgent),
      u.ragSources.GetOr(s.ragSources),
      u.conversationState.GetOr(s.conversationState),
      u.apiKeys.GetOr(s.apiKeys))
  }

  const Supervisor := "supervisor"
  const RagAgent := "rag_agent"
  const ChessAgent := "chess_agent"
  /** LangGraph's `END` node name. */
  const End := "__end__"

  const MissingKey := "Error: OpenAI API key is required"
  const NoKnowledge := "I don't have enough information in my knowledge base to answer this chess question. Please try asking about chess openings, tactics, endgames, or strategy."
  /** The text of the `IndexError` raised by `state["messages"][-1]` on an empty list. */
  const EmptyMessages := "list index out of range"

  /** `api_keys.get("openai_key")`, taken as a truth value. */
  predicate HasOpenAIKey(keys: map<string, string>) {
    "openai_key" in keys && keys["openai_key"] != []
  }

  /** The route chosen from the supervisor's (stripped, lower-cased) reply. */
  function RouteDecision(decision: string): (next: string)
    ensures next == RagAgent || next == ChessAgent
    ensures next == ChessAgent <==> !Occurs(RagAgent, decision) && Occurs(ChessAgent, decision)
  {
    if Contains(decision, RagAgent) then RagAgent
    else if Contains(decision, ChessAgent) then ChessAgent
    else RagAgent
  }

  /** What the language model and the retriever answer during one query. */
  datatype ChatReply = ChatReply(hasToolCalls: bool, content: string)
  datatype Oracles = Oracles(
    supervisorReply: Outcome<string>,
    retrieved: Outcome<nat>,
    ragAnswer: Outcome<string>,
    chessReply: Outcome<ChatReply>,
    chessFinal: Outcome<string>)

  /** `_create_supervisor_agent`. */
  function SupervisorNode(s: AgentState, reply: Outcome<string>): (u: Update)
    ensures !HasOpenAIKey(s.apiKeys) ==>
      u == Update(Some([AI(MissingKey)]), Some(Supervisor), None, None, None)
    ensures HasOpenAIKey(s.apiKeys) && s.messages != [] && reply.Done? ==>
      u == Update(Some(s.messages), Some(RouteDecision(Lower(Strip(reply.value)))),
                  Some(s.ragSources), Some(s.conversationState), Some(s.apiKeys))
    ensures u.currentAgent.Some? && u.messages.Some?
    ensures u.currentAgent.value == Supervisor ==> |u.messages.value| == 1 && u.messages.value[0].AI?
  {
    if !HasOpenAIKey(s.apiKeys) then
      Update(Some([AI(MissingKey)]), Some(Supervisor), None, None, None)
    else if s.messages == [] then
      Update(Some([AI("Error in supervisor: " + EmptyMessages)]), Some(Supervisor), None, None, None)
    else
      match reply
      case Raised(e) => Update(Some([AI("Error in supervisor: " + e)]), Some(Supervisor), None, None, None)
      case Done(text) =>
        var decision := Lower(Strip(text));
        Update(Some(s.messages), Some(RouteDecision(decision)), Some(s.ragSources),
               Some(s.conversationState), Some(s.apiKeys))
  }

  /** The returned messages are the incoming ones followed by exactly one model message. */
  ghost predicate AppendsOneReply(s: AgentState, u: Update) {
    && u.messages.Some?
    && |u.messages.value| == |s.messages| + 1
    && u.messages.value[..|s.messages|] == s.messages
    && u.messages.value[|s.messages|].AI?
  }

  /** `_create_rag_agent`: `retrieved` is the number of documents found (k = 5 requested),
      `answer` the contextual answer generated from them. */
  function RagNode(s: AgentState, retrieved: Outcome<nat>, answer: Outcome<string>): (u: Update)
    ensures AppendsOneReply(s, u)
    ensures u.currentAgent == Some(RagAgent) && u.ragSources.Some?
    ensures HasOpenAIKey(s.apiKeys) && s.messages != [] && retrieved == Done(0) ==>
      u.messages.value[|s.messages|] == AI(NoKnowledge) && u.ragSources == Some(0)
    ensures HasOpenAIKey(s.apiKeys) && s.messages != [] && retrieved.Done? && retrieved.value > 0 && answer.Done? ==>
      u.messages.value[|s.messages|] == AI(answer.value) && u.ragSources == Some(retrieved.value)
    ensures u.ragSources != Some(0) ==> retrieved.Done? && u.ragSources == Some(retrieved.value)
  {
    if !HasOpenAIKey(s.apiKeys) then
      Update(Some(s.messages + [AI(MissingKey)]), Some(RagAgent), Some(0), None, None)
    else if s.messages == [] then
      Update(Some(s.messages + [AI("Error in RAG agent: " + EmptyMessages)]), Some(RagAgent), Some(0), None, None)
    else
      match retrieved
      case Raised(e) =>
        Update(Some(s.messages + [AI("Error in RAG agent: " + e)]), Some(RagAgent), Some(0), None, None)
      case Done(n) =>
        if n == 0 then
          Update(Some(s.messages + [AI(NoKnowledge)]), Some(RagAgent), Some(0),
                 Some(s.conversationState), Some(s.apiKeys))
        else
          match answer
          case Raised(e) =>
            Update(Some(s.messages + [AI("Error in RAG agent: " + e)]), Some(RagAgent), Some(0), None, None)
          case Done(text) =>
            Update(Some(s.messages + [AI(text)]), Some(RagAgent), Some(n),
                   Some(s.conversationState), Some(s.apiKeys))
  }

  /** `_create_chess_agent`: `reply` is the tool-bound model's first answer; when it asks for
      tools, `final` is the answer after the tools have run. */
  function ChessNode(s: AgentState, reply: Outcome<ChatReply>, final: Outcome<string>): (u: Update)
    ensures AppendsOneReply(s, u)
    ensures u.currentAgent == Some(ChessAgent)
    ensures HasOpenAIKey(s.apiKeys) && s.messages != [] && reply.Done? && !reply.value.hasToolCalls ==>
      u.messages.value[|s.messages|] == AI(reply.value.content) && u.ragSources == Some(s.ragSources)
    ensures HasOpenAIKey(s.apiKeys) && s.messages != [] && reply.Done? && reply.value.hasToolCalls && final.Done? ==>
      u.messages.value[|s.messages|] == AI(final.value) && u.ragSources == Some(s.ragSources)
  {
    if !HasOpenAIKey(s.apiKeys) then
      Update(Some(s.messages + [AI(MissingKey)]), Some(ChessAgent), None, None, None)
    else if s.messages == [] then
      Update(Some(s.messages + [AI("Error in Chess agent: " + EmptyMessages)]), Some(ChessAgent), Some(0), None, None)
    else
      match reply
      case Raised(e) =>
        Update(Some(s.messages + [AI("Error in Chess agent: " + e)]), Some(ChessAgent), Some(0), None, None)
      case Done(r) =>
        if r.hasToolCalls then
          match final
          case Raised(e) =>
            Update(Some(s.messages + [AI("Error in Chess agent: " + e)]), Some(ChessAgent), Some(0), None, None)
          case Done(text) =>
            Update(Some(s.messages + [AI(text)]), Some(ChessAgent), Some(s.ragSources),
                   Some(s.conversationState), Some(s.apiKeys))
        else
          Update(Some(s.messages + [AI(r.content)]), Some(ChessAgent), Some(s.ragSources),
                 Some(s.conversationState), Some(s.apiKeys))
  }

  /** `_should_continue`: the route taken after the supervisor. */
  function ShouldContinue(currentAgent: string): (next: string)
    ensures next == RagAgent || next == ChessAgent
    ensures currentAgent == RagAgent || currentAgent == ChessAgent ==> next == currentAgent
    ensures currentAgent != ChessAgent ==> next == RagAgent
  {
    if currentAgent in [RagAgent, ChessAgent] then currentAgent else RagAgent
  }

  /** The graph as built: its entry node, the conditional edges (route name to node) of the
      nodes that have them, and the plain edges. */
  datatype Graph = Graph(
    nodes: set<string>,
    entry: string,
    conditional: map<string, map<string, string>>,
    edges: map<string, string>)

  /** `create_graph`'s wiring. */
  function ChessGraph(): Graph {
    Graph(
      {Supervisor, RagAgent, ChessAgent},
      Supervisor,
      map[Supervisor := map[RagAgent := RagAgent, ChessAgent := ChessAgent]],
      map[RagAgent := End, ChessAgent := End])
  }

  /** The node that runs after `node`, given the state it left; `None` when the graph has
      no edge for it (the runtime raises). */
  function Next(g: Graph, node: string, s: AgentState): Option<string> {
    if node in g.conditional then
      var route := ShouldContinue(s.currentAgent);
      if route in g.conditional[node] then Some(g.conditional[node][route]) else None
    else if node in g.edges then Some(g.edges[node])
    else None
  }

  function RunNode(node: string, s: AgentState, o: Oracles): Update {
    if node == Supervisor then SupervisorNode(s, o.supervisorReply)
    else if node == RagAgent then RagNode(s, o.retrieved, o.ragAnswer)
    else if node == ChessAgent then ChessNode(s, o.chessReply, o.chessFinal)
    else Update(None, None, None, None, None)
  }

  /** LangGraph's default recursion limit: the most node executions in one run. */
  const RecursionLimit: nat := 25

  /** A run: the final state, the nodes executed in order, and whether it reached `END`. */
  datatype Run = Run(state: AgentState, path: seq<string>, finished: bool)

  /** Executes `node` and its successors until `END`, at most `fuel` nodes. */
  function Execute(g: Graph, node: string, s: AgentState, o: Oracles, fuel: nat): Run
    decreases fuel
  {
    if node == End then Run(s, [], true)
    else if fuel == 0 then Run(s, [], false)
    else
      var s' := Apply(s, RunNode(node, s, o));
      match Next(g, node, s')
      case None => Run(s', [node], false)
      case Some(next) =>
        var rest := Execute(g, next, s', o, fuel - 1);
        Run(rest.state, [node] + rest.path, rest.finished)
  }

  /** Every run of the built graph finishes after the supervisor and exactly one specialist:
      the one `_should_continue` picks from the supervisor's state. */
  lemma RunShape(s: AgentState, o: Oracles)
    ensures
      var g := ChessGraph();
      var afterSupervisor := Apply(s, SupervisorNode(s, o.supervisorReply));
      var specialist := ShouldContinue(afterSupervisor.currentAgent);
      var run := Execute(g, g.entry, s, o, RecursionLimit);
      && run.finished
      && run.path == [Supervisor, specialist]
      && (specialist == RagAgent || specialist == ChessAgent)
      && run.state == Apply(afterSupervisor, RunNode(specialist, afterSupervisor, o))
  {
    var g := ChessGraph();
    var s1 := Apply(s, SupervisorNode(s, o.supervisorReply));
    var specialist := ShouldContinue(s1.currentAgent);
    assert RunNode(Supervisor, s, o) == SupervisorNode(s, o.supervisorReply);
    assert Next(g, Supervisor, s1) == Some(specialist);
    SpecialistEnds(specialist, s1, o, RecursionLimit - 1);
  }

  /** A specialist runs once and the graph ends after it. */
  lemma SpecialistEnds(specialist: string, s: AgentState, o: Oracles, fuel: nat)
    requires specialist == RagAgent || specialist == ChessAgent
    requires fuel >= 1
    ensures Execute(ChessGraph(), specialist, s, o, fuel) == Run(Apply(s, RunNode(specialist, s, o)), [specialist], true)
  {
    var s2 := Apply(s, RunNode(specialist, s, o));
    assert Next(ChessGraph(), specialist, s2) == Some(End);
    assert Execute(ChessGraph(), End, s2, o, fuel - 1) == Run(s2, [], true);
  }

  /** No node changes the caller's conversation state. */
  lemma NodeKeepsConversation(node: string, s: AgentState, o: Oracles)
    ensures Apply(s, RunNode(node, s, o)).conversationState == s.conversationState
  {
    var u := RunNode(node, s, o);
    assert u.conversationState == None || u.conversationState == Some(s.conversationState);
  }

  /** `process_query`'s result. */
  datatype QueryResult = QueryResult(
    response: string, agentUsed: string, ragSources: nat, conversationState: ConversationState)

  function InitialState(query: string, conv: ConversationState, keys: map<string, string>): AgentState {
    AgentState([Human(query)], Supervisor, 0, conv, keys)
  }

  /** The result read off a finished run. */
  function ResultOf(run: Run): QueryResult
    requires run.state.messages != []
  {
    QueryResult(run.state.messages[|run.state.messages| - 1].content, run.state.currentAgent,
                run.state.ragSources, run.state.conversationState)
  }

  function ErrorResult(e: string, conv: ConversationState): QueryResult {
    QueryResult("Sorry, I encountered an error: " + e, "error", 0, conv)
  }

  /** The response to a query when the graph runtime itself does not fail. */
  function Respond(query: string, conv: ConversationState, keys: map<string, string>, o: Oracles): QueryResult {
    var s := InitialState(query, conv, keys);
    RunShape(s, o);
    ResultOf(Execute(ChessGraph(), Supervisor, s, o, RecursionLimit))
  }

  /** A query from a caller with a key whose supervisor call succeeds: the conversation is
      the question and one reply, the reply is the response, the answering specialist is
      the one the supervisor chose, and the caller's conversation state comes back unchanged. */
  lemma {:induction false} QueryWithKey(query: string, conv: ConversationState, keys: map<string, string>, o: Oracles)
    requires HasOpenAIKey(keys) && o.supervisorReply.Done?
    ensures
      var run := Execute(ChessGraph(), Supervisor, InitialState(query, conv, keys), o, RecursionLimit);
      && |run.state.messages| == 2
      && run.state.messages[0] == Human(query) && run.state.messages[1].AI?
      && Respond(query, conv, keys, o).response == run.state.messages[1].content
      && Respond(query, conv, keys, o).agentUsed == RouteDecision(Lower(Strip(o.supervisorReply.value)))
      && Respond(query, conv, keys, o).conversationState == conv
  {
    var s := InitialState(query, conv, keys);
    RunShape(s, o);
    var s1 := Apply(s, SupervisorNode(s, o.supervisorReply));
    assert s1.messages == [Human(query)];
    var specialist := ShouldContinue(s1.currentAgent);
    assert specialist == s1.currentAgent == RouteDecision(Lower(Strip(o.supervisorReply.value)));
    SpecialistReplies(specialist, s1, o);
    NodeKeepsConversation(Supervisor, s, o);
    NodeKeepsConversation(specialist, s1, o);
    var s2 := Apply(s1, RunNode(specialist, s1, o));
    assert s2.messages[..1] == [Human(query)];
  }

  /** A specialist appends one reply to the messages and names itself as the current agent. */
  lemma SpecialistReplies(specialist: string, s: AgentState, o: Oracles)
    requires specialist == RagAgent || specialist == ChessAgent
    ensures var s2 := Apply(s, RunNode(specialist, s, o));
      && |s2.messages| == |s.messages| + 1
      && s2.messages[..|s.messages|] == s.messages
      && s2.messages[|s.messages|].AI?
      && s2.currentAgent == specialist
  {
    var u := RunNode(specialist, s, o);
    assert AppendsOneReply(s, u) && u.currentAgent == Some(specialist);
  }

  /** A query without a key: the supervisor's error replaces the conversation, the default
      route reaches the knowledge agent, which appends its own error. */
  lemma {:induction false} QueryWithoutKey(query: string, conv: ConversationState, keys: map<string, string>, o: Oracles)
    requires !HasOpenAIKey(keys)
    ensures
      var run := Execute(ChessGraph(), Supervisor, InitialState(query, conv, keys), o, RecursionLimit);
      && run.path == [Supervisor, RagAgent]
      && run.state.messages == [AI(MissingKey), AI(MissingKey)]
      && Respond(query, conv, keys, o) == QueryResult(MissingKey, RagAgent, 0, conv)
  {
    RunShape(InitialState(query, conv, keys), o);
  }

  /** Whatever happens, the caller's conversation state is handed back unchanged. */
  lemma {:induction false} ConversationPreserved(query: string, conv: ConversationState, keys: map<string, string>, o: Oracles)
    ensures Respond(query, conv, keys, o).conversationState == conv
  {
    var s := InitialState(query, conv, keys);
    RunShape(s, o);
    NodeKeepsConversation(Supervisor, s, o);
    var s1 := Apply(s, RunNode(Supervisor, s, o));
    NodeKeepsConversation(ShouldContinue(s1.currentAgent), s1, o);
  }

  /** `ChessMultiAgentSystem`: the graph is built and compiled lazily. */
  class ChessMultiAgentSystem {
    var graph: Option<Graph>
    var compiledGraph: Option<Graph>

    /** Whatever has been built is the wiring of `create_graph`, and a compiled graph
        exists only once the graph does. */
    predicate Valid()
      reads this
    {
      && (graph.Some? ==> graph.value == ChessGraph())
      && (compiledGraph.Some? ==> graph.Some? && compiledGraph.value == ChessGraph())
    }

    constructor ()
      ensures Valid() && graph.None? && compiledGraph.None?
    {
      graph := None;
      compiledGraph := None;
    }

    method CreateGraph() returns (g: Graph)
      modifies this
      requires Valid()
      ensures Valid()
      ensures g == ChessGraph() && graph == Some(g)
      ensures compiledGraph == old(compiledGraph)
    {
      g := ChessGraph();
      graph := Some(g);
    }

    /** Compiling keeps the wiring; the compiled form is the graph itself here. */
    method CompileGraph() returns (g: Graph)
      modifies this
      requires Valid()
      ensures Valid()
      ensures graph == Some(ChessGraph()) && compiledGraph == Some(ChessGraph()) && g == ChessGraph()
    {
      if graph.None? {
        var _ := CreateGraph();
      }
      compiledGraph := graph;
      g := graph.value;
    }

    /** `process_query`: compiles the graph on first use and runs it from the initial state;
        `runtimeError` is an exception raised by the graph runtime itself, which yields the
        error result. */
    method ProcessQuery(query: string, conv: ConversationState, keys: map<string, string>,
                        o: Oracles, runtimeError: Option<string>)
      returns (result: QueryResult)
      modifies this
      requires Valid()
      ensures Valid() && compiledGraph == Some(ChessGraph())
      ensures runtimeError.Some? ==> result == ErrorResult(runtimeError.value, conv)
      ensures runtimeError.None? ==> result == Respond(query, conv, keys, o)
    {
      if compiledGraph.None? {
        var _ := CompileGraph();
      }
      if runtimeError.Some? {
        return ErrorResult(runtimeError.value, conv);
      }
      result := Respond(query, conv, keys, o);
    }
  }
}
