/** The compiled workflow: four nodes, two conditional edges and the step
    ceiling, run as a state machine over the conversation. */
module Graph {
  import opened Wrappers
  import opened Messages
  import Edges
  import Nodes

  /** The graph's nodes; `End` is the terminal `END`. */
  datatype Node = Agent | Retrieve | Rewrite | Generate | End

  /** The `recursion_limit` passed with every invocation. */
  const RecursionLimit: nat := 25

  /** What the nodes call and cannot be seen into: the tool-bound model, the
      framework's `ToolNode`, the relevance-grading chain (question, document) to
      `binary_score`, the RAG chain (question, document) to answer text, the
      plain chat model, and the wording of the rewrite request. */
  datatype Oracles = Oracles(
    toolModel: seq<Message> -> Reply,
    toolNode: seq<Message> -> seq<Message>,
    score: (string, string) -> string,
    answer: (string, string) -> string,
    chat: seq<Message> -> Reply,
    rewritePrompt: Nodes.PromptTemplate)

  /** The behaviour attached to each node: the single message appended by
      `agent`, `generate` and `rewrite`, the messages `retrieve` appends, and
      the relevance gate on the edge out of `retrieve`. */
  datatype NodeFunctions = NodeFunctions(
    agent: seq<Message> -> Message,
    retrieve: Conversation -> seq<Message>,
    grade: Conversation -> Edges.Decision,
    generate: Conversation -> Message,
    rewrite: Conversation -> Message)

  /** `create_graph`: the nodes of the `src` modules bound to the oracles. */
  function CreateGraph(o: Oracles): (g: NodeFunctions)
    ensures forall ms :: g.agent(ms) == Nodes.Agent(o.toolModel, ms)
    ensures forall ms: Conversation :: g.retrieve(ms) == o.toolNode(ms)
    ensures forall ms: Conversation :: g.grade(ms) == Edges.GradeDocuments(o.score, ms)
    ensures forall ms: Conversation :: g.generate(ms) == Nodes.Generate(o.answer, ms)
    ensures forall ms: Conversation :: g.rewrite(ms) == Nodes.Rewrite(o.chat, o.rewritePrompt, ms)
  {
    NodeFunctions(
      ms => Nodes.Agent(o.toolModel, ms),
      (ms: Conversation) => o.toolNode(ms),
      (ms: Conversation) => Edges.GradeDocuments(o.score, ms),
      (ms: Conversation) => Nodes.Generate(o.answer, ms),
      (ms: Conversation) => Nodes.Rewrite(o.chat, o.rewritePrompt, ms))
  }

  /** The wiring: every edge that `add_edge` and `add_conditional_edges`
      declare, the conditional ones with all their targets. */
  predicate CanFollow(a: Node, b: Node) {
    || (a == Agent && (b == Retrieve || b == End))
    || (a == Retrieve && (b == Generate || b == Rewrite))
    || (a == Generate && b == End)
    || (a == Rewrite && b == Agent)
  }

  /** `END` has exactly two predecessors. */
  lemma EndOnlyAfterAgentOrGenerate(a: Node)
    ensures CanFollow(a, End) <==> a == Agent || a == Generate
  {
  }

  /** `tools_condition`: the last message requests at least one tool call. */
  predicate ToolsCondition(ms: Conversation) {
    HasToolCalls(ms[|ms| - 1])
  }

  /** The messages a node returns for appending. */
  function Execute(g: NodeFunctions, node: Node, ms: seq<Message>): (update: seq<Message>)
    requires node != End
    requires node != Agent ==> |ms| > 0
    ensures node != Retrieve ==> |update| == 1
    ensures node == Agent ==> update == [g.agent(ms)]
    ensures node == Retrieve ==> update == g.retrieve(ms)
    ensures node == Generate ==> update == [g.generate(ms)]
    ensures node == Rewrite ==> update == [g.rewrite(ms)]
  {
    if node == Agent then [g.agent(ms)]
    else if node == Retrieve then g.retrieve(ms)
    else if node == Generate then [g.generate(ms)]
    else [g.rewrite(ms)]
  }

  /** The node after `node`, decided on the conversation that `node` left. */
  function Next(g: NodeFunctions, node: Node, ms: Conversation): (next: Node)
    requires node != End
    ensures CanFollow(node, next)
    ensures node == Agent ==> (next == Retrieve <==> ToolsCondition(ms))
    ensures node == Retrieve ==> (next == Generate <==> g.grade(ms) == Edges.Generate)
  {
    if node == Agent then (if ToolsCondition(ms) then Retrieve else End)
    else if node == Retrieve then (if g.grade(ms) == Edges.Generate then Generate else Rewrite)
    else if node == Generate then End
    else Agent
  }

  /** A finished run: the final conversation and the nodes executed, in order. */
  datatype Outcome = Completed(messages: seq<Message>, trace: seq<Node>) | RecursionLimitReached

  function Prepend(nodes: seq<Node>, o: Outcome): Outcome {
    match o
    case Completed(ms, t) => Completed(ms, nodes + t)
    case RecursionLimitReached => RecursionLimitReached
  }

  lemma PrependNothing(o: Outcome)
    ensures Prepend([], o) == o
  {
    if o.Completed? {
      assert [] + o.trace == o.trace;
    }
  }

  lemma PrependPrepend(a: seq<Node>, b: seq<Node>, o: Outcome)
    ensures Prepend(a, Prepend(b, o)) == Prepend(a + b, o)
  {
    if o.Completed? {
      assert a + (b + o.trace) == (a + b) + o.trace;
    }
  }

  /** The run from `node` with `steps` node executions already spent: each
      step executes the node, appends what it returns, and follows the edge;
      once the ceiling is spent without reaching `END` the run is aborted. */
  function RunFrom(g: NodeFunctions, node: Node, ms: seq<Message>, steps: nat): Outcome
    requires steps <= RecursionLimit
    requires node != Agent ==> |ms| > 0
    decreases RecursionLimit - steps
  {
    if node == End then Completed(ms, [])
    else if steps == RecursionLimit then RecursionLimitReached
    else
      var ms' := ms + Execute(g, node, ms);
      Prepend([node], RunFrom(g, Next(g, node, ms'), ms', steps + 1))
  }

  /** `graph.invoke(input)`: execution begins at `agent`. */
  function Invoke(g: NodeFunctions, input: seq<Message>): (out: Outcome)
    ensures out.Completed? ==>
              && 0 < |out.trace| <= RecursionLimit
              && out.trace[0] == Agent
              && input <= out.messages
              && forall i :: 0 <= i < |out.trace| - 1 ==> CanFollow(out.trace[i], out.trace[i + 1])
  {
    var out := RunFrom(g, Agent, input, 0);
    if out.Completed? then
      RunBounds(g, Agent, input, 0);
      RunFollowsWiring(g, Agent, input, 0);
      out
    else out
  }

  /** A completed run executes at most the remaining ceiling of nodes,
      starting with `node`, and only ever appends to the conversation. */
  lemma {:induction false} RunBounds(g: NodeFunctions, node: Node, ms: seq<Message>, steps: nat)
    requires steps <= RecursionLimit
    requires node != Agent ==> |ms| > 0
    requires node != End
    requires RunFrom(g, node, ms, steps).Completed?
    ensures var out := RunFrom(g, node, ms, steps);
            && 0 < |out.trace| <= RecursionLimit - steps
            && out.trace[0] == node
            && |out.messages| > 0
            && ms <= out.messages
    decreases RecursionLimit - steps
  {
    var ms' := ms + Execute(g, node, ms);
    var next := Next(g, node, ms');
    if next != End {
      RunBounds(g, next, ms', steps + 1);
      assert ms <= ms' <= RunFrom(g, next, ms', steps + 1).messages;
    }
  }

  /** A completed run leaves through `agent` when its reply requests no tool,
      or through `generate`. */
  lemma {:induction false} RunExits(g: NodeFunctions, node: Node, ms: seq<Message>, steps: nat)
    requires steps <= RecursionLimit
    requires node != Agent ==> |ms| > 0
    requires node != End
    requires RunFrom(g, node, ms, steps).Completed?
    ensures var out := RunFrom(g, node, ms, steps);
            && |out.trace| > 0 && |out.messages| > 0
            && (|| out.trace[|out.trace| - 1] == Generate
                || (out.trace[|out.trace| - 1] == Agent && !ToolsCondition(out.messages)))
    decreases RecursionLimit - steps
  {
    var ms' := ms + Execute(g, node, ms);
    var next := Next(g, node, ms');
    var rest := RunFrom(g, next, ms', steps + 1);
    if next != End {
      RunExits(g, next, ms', steps + 1);
      assert ([node] + rest.trace)[|rest.trace|] == rest.trace[|rest.trace| - 1];
    }
  }

  /** The nodes of a completed run follow the declared edges. */
  lemma {:induction false} RunFollowsWiring(g: NodeFunctions, node: Node, ms: seq<Message>, steps: nat)
    requires steps <= RecursionLimit
    requires node != Agent ==> |ms| > 0
    requires node != End
    requires RunFrom(g, node, ms, steps).Completed?
    ensures var t := RunFrom(g, node, ms, steps).trace;
            && |t| > 0 && t[0] == node
            && forall i :: 0 <= i < |t| - 1 ==> CanFollow(t[i], t[i + 1])
    decreases RecursionLimit - steps
  {
    var ms' := ms + Execute(g, node, ms);
    var next := Next(g, node, ms');
    if next != End {
      RunFollowsWiring(g, next, ms', steps + 1);
    }
  }

  /** When the gate always says `rewrite` and the model always asks for a tool,
      the cycle agent, retrieve, rewrite never ends by itself: the ceiling
      aborts the run. */
  lemma {:induction false} AlwaysRewriteAborts(g: NodeFunctions, node: Node, ms: seq<Message>, steps: nat)
    requires forall c: Conversation :: g.grade(c) == Edges.Rewrite
    requires forall c :: HasToolCalls(g.agent(c))
    requires node == Agent || node == Retrieve || node == Rewrite
    requires steps <= RecursionLimit
    requires node != Agent ==> |ms| > 0
    ensures RunFrom(g, node, ms, steps) == RecursionLimitReached
    decreases RecursionLimit - steps
  {
    if steps < RecursionLimit {
      var ms' := ms + Execute(g, node, ms);
      AlwaysRewriteAborts(g, Next(g, node, ms'), ms', steps + 1);
    }
  }

  /** One step along a run: the prefix grows by the executed node, and the
      rest of the run continues from the node the edge chooses. */
  lemma StepOnRun(g: NodeFunctions, trace: seq<Node>, node: Node, ms: seq<Message>, steps: nat)
    requires steps < RecursionLimit && node != End
    requires node != Agent ==> |ms| > 0
    ensures var ms' := ms + Execute(g, node, ms);
            Prepend(trace, RunFrom(g, node, ms, steps)) ==
            Prepend(trace + [node], RunFrom(g, Next(g, node, ms'), ms', steps + 1))
  {
    var ms' := ms + Execute(g, node, ms);
    PrependPrepend(trace, [node], RunFrom(g, Next(g, node, ms'), ms', steps + 1));
  }

  /** The builder of `create_graph`: the declared nodes, the entry edge from
      `START`, and every edge (a conditional edge contributes all its targets). */
  class Workflow {
    var nodes: set<Node>
    var entry: Option<Node>
    var edges: set<(Node, Node)>

    constructor ()
      ensures nodes == {} && entry == None && edges == {}
    {
      nodes, entry, edges := {}, None, {};
    }

    method AddNode(n: Node)
      modifies this
      ensures nodes == old(nodes) + {n} && entry == old(entry) && edges == old(edges)
    {
      nodes := nodes + {n};
    }

    /** `add_edge(START, n)`. */
    method AddEntry(n: Node)
      modifies this
      ensures entry == Some(n) && nodes == old(nodes) && edges == old(edges)
    {
      entry := Some(n);
    }

    /** `add_edge(a, b)` and, one target at a time, `add_conditional_edges`. */
    method AddEdge(a: Node, b: Node)
      modifies this
      ensures edges == old(edges) + {(a, b)} && nodes == old(nodes) && entry == old(entry)
    {
      edges := edges + {(a, b)};
    }

    method AddConditionalEdges(a: Node, targets: set<Node>)
      modifies this
      ensures edges == old(edges) + set b | b in targets :: (a, b)
      ensures nodes == old(nodes) && entry == old(entry)
    {
      edges := edges + set b | b in targets :: (a, b);
    }
  }

  /** The builder steps of `create_graph`; the result declares the four nodes,
      enters at `agent`, and has exactly the edges of `CanFollow`. */
  method BuildWorkflow() returns (w: Workflow)
    ensures w.nodes == {Agent, Retrieve, Rewrite, Generate}
    ensures w.entry == Some(Agent)
    ensures forall a, b :: (a, b) in w.edges <==> CanFollow(a, b)
  {
    w := new Workflow();
    w.AddNode(Agent);
    w.AddNode(Retrieve);
    w.AddNode(Rewrite);
    w.AddNode(Generate);
    w.AddEntry(Agent);
    w.AddConditionalEdges(Agent, {Retrieve, End});
    w.AddConditionalEdges(Retrieve, {Generate, Rewrite});
    w.AddEdge(Generate, End);
    w.AddEdge(Rewrite, Agent);
  }

  /** One invocation of the compiled graph: the node about to run, the
      conversation, the steps spent and the nodes executed so far. */
  class GraphRun {
    const nodeFunctions: NodeFunctions
    const input: seq<Message>
    var node: Node
    var messages: seq<Message>
    var steps: nat
    var trace: seq<Node>

    /** The state is a point on the run that `Invoke` describes. */
    ghost predicate Valid()
      reads this
    {
      && steps <= RecursionLimit
      && |trace| == steps
      && (node != Agent ==> |messages| > 0)
      && Invoke(nodeFunctions, input) == Prepend(trace, RunFrom(nodeFunctions, node, messages, steps))
    }

    constructor (g: NodeFunctions, input: seq<Message>)
      ensures Valid()
      ensures nodeFunctions == g && this.input == input
      ensures node == Agent && messages == input && steps == 0 && trace == []
    {
      nodeFunctions, this.input := g, input;
      node, messages, steps, trace := Agent, input, 0, [];
      new;
      PrependNothing(RunFrom(g, Agent, input, 0));
    }

    /** Executes the current node, appends its messages, follows the edge. */
    method Step()
      requires Valid() && node != End && steps < RecursionLimit
      modifies this
      ensures Valid()
      ensures messages == old(messages) + Execute(nodeFunctions, old(node), old(messages))
      ensures node == Next(nodeFunctions, old(node), messages)
      ensures steps == old(steps) + 1 && trace == old(trace) + [old(node)]
    {
      var current, before := node, messages;
      var update := Execute(nodeFunctions, current, before);
      messages := before + update;
      node := Next(nodeFunctions, current, messages);
      StepOnRun(nodeFunctions, trace, current, before, steps);
      trace := trace + [current];
      steps := steps + 1;
    }

    /** Steps until `END` or until the ceiling is spent. */
    method Run() returns (outcome: Outcome)
      requires Valid()
      modifies this
      ensures outcome == Invoke(nodeFunctions, input)
    {
      while node != End && steps < RecursionLimit
        invariant Valid()
        decreases RecursionLimit - steps
      {
        Step();
      }
      if node == End {
        assert trace + [] == trace;
        outcome := Completed(messages, trace);
      } else {
        outcome := RecursionLimitReached;
      }
    }
  }
}
