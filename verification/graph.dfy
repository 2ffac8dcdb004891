/** The Scout agent graph: the conversation state, the `assistant` node
    that asks the model for one response, and the fixed wiring between
    the start, the Scout node and the tools node. */
module Graph {

  /** A tool call requested by an AI message. */
  datatype ToolCall = ToolCall(id: string, name: string, args: string)

  datatype Message =
    | SystemMessage(content: string)
    | HumanMessage(content: string)
    | AIMessage(content: string, toolCalls: seq<ToolCall>)
    | ToolMessage(content: string, toolCallId: string)

  /** The graph state: the conversation history, oldest first. */
  datatype AgentState = AgentState(messages: seq<Message>)

  /** What the model is sent: the system prompt first, then the whole
      history in order. */
  function ModelInput(systemPrompt: string, state: AgentState): (r: seq<Message>)
    ensures |r| == |state.messages| + 1
    ensures r[0] == SystemMessage(systemPrompt)
    ensures forall i :: 0 <= i < |state.messages| ==> r[i + 1] == state.messages[i]
  {
    [SystemMessage(systemPrompt)] + state.messages
  }

  /** The `assistant` node: asks the model once and appends its response.
      `llm` stands for the chat model's `invoke`. */
  function Assistant(state: AgentState, systemPrompt: string, llm: seq<Message> -> Message): (r: AgentState)
    ensures |r.messages| == |state.messages| + 1
    ensures r.messages[..|state.messages|] == state.messages
    ensures r.messages[|state.messages|] == llm(ModelInput(systemPrompt, state))
  {
    AgentState(state.messages + [llm([SystemMessage(systemPrompt)] + state.messages)])
  }

  /** Whatever the graph appends after an assistant step (tool results, a
      new user message, later responses), every later model input starts
      with the input of that step followed by the response it gave:
      nothing is dropped or reordered between calls. */
  lemma LaterInputsExtendPrevious(state: AgentState, systemPrompt: string, llm: seq<Message> -> Message,
                                  later: AgentState)
    requires |later.messages| > |state.messages|
    requires later.messages[..|state.messages| + 1] == Assistant(state, systemPrompt, llm).messages
    ensures var before := ModelInput(systemPrompt, state);
      var next := ModelInput(systemPrompt, later);
      |next| > |before| && next[..|before| + 1] == before + [llm(before)]
  {
    var before := ModelInput(systemPrompt, state);
    var next := ModelInput(systemPrompt, later);
    var stepped := Assistant(state, systemPrompt, llm).messages;
    forall i | 0 <= i < |before| + 1
      ensures next[i] == (before + [llm(before)])[i]
    {
      if i > 0 {
        assert next[i] == later.messages[i - 1] == stepped[i - 1];
      }
    }
  }

  /** The nodes of the graph; `End` is the graph's end. */
  datatype Node = Start | Scout | Tools | End

  /** An edge: a fixed one, or the conditional edge whose target
      `tools_condition` chooses: the tools node when the last message
      requests tools, the end otherwise. */
  datatype Edge = Direct(source: Node, target: Node) | Routed(source: Node)

  /** The edges the builder adds, in order. */
  const ScoutEdges: seq<Edge> := [Direct(Start, Scout), Routed(Scout), Direct(Tools, Scout)]

  /** Where a conditional edge leads, given the outcome of `tools_condition`. */
  function Route(toolsRequested: bool): Node {
    if toolsRequested then Tools else End
  }

  /** The successors of a node along a list of edges, given the outcome of
      `tools_condition` on the current state. */
  function Next(edges: seq<Edge>, n: Node, toolsRequested: bool): (r: set<Node>)
    ensures forall m :: m in r ==> exists i :: 0 <= i < |edges| && edges[i].source == n
  {
    if |edges| == 0 then {}
    else
      var here := if edges[0].source != n then {}
        else match edges[0]
          case Direct(_, target) => {target}
          case Routed(_) => {Route(toolsRequested)};
      var rest := Next(edges[1..], n, toolsRequested);
      assert forall m :: m in rest ==> exists i :: 0 <= i < |edges| && edges[i].source == n by {
        forall m | m in rest
          ensures exists i :: 0 <= i < |edges| && edges[i].source == n
        {
          var j :| 0 <= j < |edges[1..]| && edges[1..][j].source == n;
          assert edges[j + 1].source == n;
        }
      }
      here + rest
  }

  /** The Scout graph's wiring: the start and the tools node always lead to
      Scout, Scout leads to the tools or the end as `tools_condition`
      says, and the end leads nowhere. */
  lemma ScoutWiring(toolsRequested: bool)
    ensures Next(ScoutEdges, Start, toolsRequested) == {Scout}
    ensures Next(ScoutEdges, Tools, toolsRequested) == {Scout}
    ensures Next(ScoutEdges, Scout, toolsRequested) == {if toolsRequested then Tools else End}
    ensures Next(ScoutEdges, End, toolsRequested) == {}
  {
    assert ScoutEdges[1..] == [Routed(Scout), Direct(Tools, Scout)];
    assert ScoutEdges[1..][1..] == [Direct(Tools, Scout)];
    assert ScoutEdges[1..][1..][1..] == [];
    var last := ScoutEdges[1..][1..];
    assert Next(last[1..], Tools, toolsRequested) == {};
    assert Next(last, Tools, toolsRequested) == {Scout} + {};
    assert Next(ScoutEdges[1..], Tools, toolsRequested) == {} + ({Scout} + {});
  }

  /** The nodes that can follow a node, whatever `tools_condition` says. */
  function Possible(n: Node): set<Node> {
    Next(ScoutEdges, n, true) + Next(ScoutEdges, n, false)
  }

  /** A walk through the graph from the start along its edges. */
  predicate Walk(path: seq<Node>) {
    && |path| > 0
    && path[0] == Start
    && forall i :: 0 <= i < |path| - 1 ==> path[i + 1] in Possible(path[i])
  }

  /** Every walk alternates: Scout at every odd step, the tools node or the
      end at every even step after the start, and nothing after the end.
      So the tools node is only ever entered from Scout and always hands
      back to it. */
  lemma {:induction false} WalkAlternates(path: seq<Node>)
    requires Walk(path)
    ensures forall i :: 0 < i < |path| ==> (path[i] == Scout <==> i % 2 == 1)
    ensures forall i :: 0 < i < |path| && i % 2 == 0 ==> path[i] == Tools || path[i] == End
    ensures forall i :: 0 <= i < |path| - 1 ==> path[i] != End
    decreases |path|
  {
    ScoutWiring(true);
    ScoutWiring(false);
    if |path| > 1 {
      var front := path[..|path| - 1];
      assert Walk(front) by {
        forall i | 0 <= i < |front| - 1
          ensures front[i + 1] in Possible(front[i])
        {
          assert front[i] == path[i] && front[i + 1] == path[i + 1];
        }
      }
      WalkAlternates(front);
      var k := |path| - 1;
      assert path[k] in Possible(path[k - 1]);
      assert forall i :: 0 <= i < k ==> path[i] == front[i];
    }
  }
}
