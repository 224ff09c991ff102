/** The standalone copy of the agent used for debugging: the same graph with
    its own node functions, five tools, and a guard for an empty input. */
module Debugging {
  import opened Wrappers
  import opened Messages
  import opened Tools
  import Edges
  import Nodes
  import Graph

  const NoToolsError := "No tools were initialized! Check your data files and network connection."
  const Guidance := "No input provided. Please ask a question about LangGraph, Agent Quality, or Abhiram."

  /** The module-level `tools`: the five factories' results (URL, PDF, text,
      Wikipedia, Arxiv) with the failed ones dropped; raises when none was built. */
  function InitializeTools(url: Option<ToolAdapter>, pdf: Option<ToolAdapter>, text: Option<ToolAdapter>,
                           wikipedia: Option<ToolAdapter>, arxiv: Option<ToolAdapter>)
    : (r: Result<seq<ToolAdapter>, string>)
    ensures r.Err? <==> url.None? && pdf.None? && text.None? && wikipedia.None? && arxiv.None?
    ensures r.Err? ==> r.error == NoToolsError
    ensures r.Ok? ==> |r.value| > 0 && r.value == Built([url, pdf, text, wikipedia, arxiv])
  {
    var raw := [url, pdf, text, wikipedia, arxiv];
    var tools := Built(raw);
    if tools == [] then
      assert raw[0].None? && raw[1].None? && raw[2].None? && raw[3].None? && raw[4].None?;
      Err(NoToolsError)
    else Ok(tools)
  }

  /** `agent` with its guard: an empty conversation gets the fixed guidance
      message without the model being asked; otherwise the tool-bound model's
      reply on the whole conversation. */
  function Agent(toolModel: seq<Message> -> Reply, ms: seq<Message>): (reply: Message)
    ensures reply.AI?
    ensures |ms| == 0 ==> reply == AI(Guidance, [])
    ensures |ms| > 0 ==> reply == toolModel(ms)
  {
    if |ms| == 0 then AI(Guidance, []) else toolModel(ms)
  }

  /** On the empty conversation the reply is the same whatever the model is:
      the model is not consulted. */
  lemma EmptyInputIgnoresModel(m1: seq<Message> -> Reply, m2: seq<Message> -> Reply)
    ensures Agent(m1, []) == Agent(m2, []) && !HasToolCalls(Agent(m1, []))
  {
  }

  /** `generate` here returns the RAG chain's raw text, not a message. */
  function Generate(answer: (string, string) -> string, ms: Conversation): (raw: string)
    ensures raw == answer(Question(ms), ms[|ms| - 1].content)
  {
    answer(Question(ms), Document(ms))
  }

  /** The graph of this file: the same wiring as `create_graph`, with this
      file's nodes. The framework turns the raw text that `generate` returns
      into a message; `coerce` stands for that conversion. */
  function CreateGraph(o: Graph.Oracles, coerce: string -> Message): (g: Graph.NodeFunctions)
    ensures forall ms :: g.agent(ms) == Agent(o.toolModel, ms)
    ensures forall ms: Conversation :: g.retrieve(ms) == o.toolNode(ms)
    ensures forall ms: Conversation :: g.grade(ms) == Edges.GradeDocuments(o.score, ms)
    ensures forall ms: Conversation :: g.generate(ms) == coerce(Generate(o.answer, ms))
    ensures forall ms: Conversation :: g.rewrite(ms) == Nodes.Rewrite(o.chat, o.rewritePrompt, ms)
  {
    Graph.NodeFunctions(
      ms => Agent(o.toolModel, ms),
      (ms: Conversation) => o.toolNode(ms),
      (ms: Conversation) => Edges.GradeDocuments(o.score, ms),
      (ms: Conversation) => coerce(Generate(o.answer, ms)),
      (ms: Conversation) => Nodes.Rewrite(o.chat, o.rewritePrompt, ms))
  }

  /** The gate of this file routes to `generate` exactly on the score "yes". */
  lemma GradeOnExactYes(o: Graph.Oracles, coerce: string -> Message, ms: Conversation)
    ensures CreateGraph(o, coerce).grade(ms) == Edges.Generate <==>
            o.score(Question(ms), ms[|ms| - 1].content) == "yes"
  {
  }

  /** An empty input ends after one `agent` step with only the guidance. */
  lemma {:induction false} EmptyInputGetsGuidance(o: Graph.Oracles, coerce: string -> Message)
    ensures Graph.Invoke(CreateGraph(o, coerce), []) == Graph.Completed([AI(Guidance, [])], [Graph.Agent])
  {
    var g := CreateGraph(o, coerce);
    var ms' := [] + Graph.Execute(g, Graph.Agent, []);
    assert ms' == [AI(Guidance, [])];
    assert Graph.Next(g, Graph.Agent, ms') == Graph.End;
    assert Graph.RunFrom(g, Graph.End, ms', 1) == Graph.Completed(ms', []);
  }

  /** `graph.invoke(input)` for this file's graph. */
  method Invoke(o: Graph.Oracles, coerce: string -> Message, input: seq<Message>) returns (outcome: Graph.Outcome)
    ensures outcome == Graph.Invoke(CreateGraph(o, coerce), input)
  {
    var run := new Graph.GraphRun(CreateGraph(o, coerce), input);
    outcome := run.Run();
  }
}
