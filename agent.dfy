/** `AgenticRAGAgent`: builds the tool list and the graph once, runs a query
    through the graph, and reads the answer and the execution details off
    the final conversation. */
module Agent {
  import opened Wrappers
  import opened Text
  import opened Messages
  import opened Tools
  import Graph

  const NoToolsError := "No tools were initialized!"
  const Fallback := "Sorry, I couldn't generate a response."
  const UnknownTool := "unknown"

  /** `_initialize_tools`: the six factories' results, URL, PDF, text,
      Wikipedia, Arxiv, web search, with the failed ones dropped; raises when
      none was built. */
  function InitializeTools(url: Option<ToolAdapter>, pdf: Option<ToolAdapter>, text: Option<ToolAdapter>,
                           wikipedia: Option<ToolAdapter>, arxiv: Option<ToolAdapter>, web: Option<ToolAdapter>)
    : (r: Result<seq<ToolAdapter>, string>)
    ensures r.Err? <==> url.None? && pdf.None? && text.None? && wikipedia.None? && arxiv.None? && web.None?
    ensures r.Err? ==> r.error == NoToolsError
    ensures r.Ok? ==> |r.value| > 0 && r.value == Built([url, pdf, text, wikipedia, arxiv, web])
  {
    var raw := [url, pdf, text, wikipedia, arxiv, web];
    var tools := Built(raw);
    if tools == [] then
      assert raw[0].None? && raw[1].None? && raw[2].None? && raw[3].None? && raw[4].None? && raw[5].None?;
      Err(NoToolsError)
    else Ok(tools)
  }

  /** Whether `m` is accepted as the final answer: an assistant message
      without tool calls whose stripped content is non-empty and is not a
      tool call written out as XML (`<` ... `</function>`). */
  predicate Qualifies(m: Message) {
    && m.AI?
    && !HasToolCalls(m)
    && |m.content| > 0
    && var s := Strip(m.content);
       && !(StartsWith(s, "<") && Contains(s, "</function>"))
       && |s| > 0
  }

  /** The answer `_extract_response` picks: the stripped content of the last
      qualifying message, else the fixed apology. Never empty, never padded. */
  function Response(ms: seq<Message>): (r: string)
    ensures |r| > 0 && !IsSpace(r[0]) && !IsSpace(r[|r| - 1])
  {
    if ms == [] then Fallback
    else if Qualifies(ms[|ms| - 1]) then Strip(ms[|ms| - 1].content)
    else Response(ms[..|ms| - 1])
  }

  /** The answer comes from the last qualifying message. */
  lemma {:induction false} ResponseFromLastQualifying(ms: seq<Message>, i: nat)
    requires i < |ms| && Qualifies(ms[i])
    requires forall j :: i < j < |ms| ==> !Qualifies(ms[j])
    ensures Response(ms) == Strip(ms[i].content)
    decreases |ms|
  {
    if i < |ms| - 1 {
      var front := ms[..|ms| - 1];
      assert forall j :: i < j < |front| ==> front[j] == ms[j];
      ResponseFromLastQualifying(front, i);
    }
  }

  /** With no qualifying message the answer is the apology. */
  lemma {:induction false} ResponseFallback(ms: seq<Message>)
    requires forall j :: 0 <= j < |ms| ==> !Qualifies(ms[j])
    ensures Response(ms) == Fallback
    decreases |ms|
  {
    if ms != [] {
      var front := ms[..|ms| - 1];
      assert forall j :: 0 <= j < |front| ==> front[j] == ms[j];
      ResponseFallback(front);
    }
  }

  /** A message that requests tools is never the source of the answer: adding
      one at the end leaves the answer as it was. */
  lemma ToolCallTurnIgnored(ms: seq<Message>, m: Message)
    requires HasToolCalls(m)
    ensures Response(ms + [m]) == Response(ms)
  {
    assert (ms + [m])[..|ms|] == ms;
  }

  /** `_extract_response`: walks the conversation backwards. */
  method ExtractResponse(ms: seq<Message>) returns (r: string)
    ensures r == Response(ms)
  {
    var i := |ms|;
    assert ms[..i] == ms;
    while i > 0
      invariant 0 <= i <= |ms|
      invariant Response(ms) == Response(ms[..i])
    {
      i := i - 1;
      var msg := ms[i];
      assert ms[..i + 1][..i] == ms[..i];
      if msg.AI? {
        if HasToolCalls(msg) {
          continue;
        }
        var content := msg.content;
        if |content| > 0 {
          var stripped := Strip(content);
          if StartsWith(stripped, "<") && Contains(stripped, "</function>") {
            continue;
          }
          if |stripped| > 0 {
            return stripped;
          }
        }
      }
    }
    return Fallback;
  }

  /** `tool_call.get('name', 'unknown')` for each call, in order. */
  function CallNames(calls: seq<ToolCall>): (names: seq<string>)
    ensures |names| == |calls|
    ensures forall k :: 0 <= k < |calls| ==>
              names[k] == if calls[k].name.Some? then calls[k].name.value else UnknownTool
  {
    if calls == [] then []
    else CallNames(calls[..|calls| - 1]) + [calls[|calls| - 1].name.GetOr(UnknownTool)]
  }

  /** The tool names requested across the conversation, message by message. */
  function RequestedTools(ms: seq<Message>): seq<string> {
    if ms == [] then []
    else
      var m := ms[|ms| - 1];
      RequestedTools(ms[..|ms| - 1]) + (if HasToolCalls(m) then CallNames(m.toolCalls) else [])
  }

  predicate Distinct(s: seq<string>) {
    forall i, j :: 0 <= i < j < |s| ==> s[i] != s[j]
  }

  /** Keeps the first occurrence of each name: the same names, each once. */
  function Dedup(s: seq<string>): (d: seq<string>)
    ensures Distinct(d)
    ensures forall x :: x in d <==> x in s
  {
    if s == [] then []
    else
      var front := s[..|s| - 1];
      var x := s[|s| - 1];
      assert s == front + [x];
      var d := Dedup(front);
      if x in d then d else d + [x]
  }

  /** Index of the first occurrence of `x` in `s`. */
  function FirstIndex(s: seq<string>, x: string): (k: nat)
    requires x in s
    ensures k < |s| && s[k] == x && forall j :: 0 <= j < k ==> s[j] != x
  {
    if s[0] == x then 0 else 1 + FirstIndex(s[1..], x)
  }

  lemma {:induction false} FirstIndexExtend(s: seq<string>, y: string, x: string)
    requires x in s
    ensures FirstIndex(s + [y], x) == FirstIndex(s, x)
  {
    var k := FirstIndex(s, x);
    var k' := FirstIndex(s + [y], x);
    assert (s + [y])[k] == x;
    assert k' <= k;
    assert s[k'] == (s + [y])[k'];
  }

  /** The deduplicated names are in the order of their first appearance. */
  lemma {:induction false} DedupFirstAppearanceOrder(s: seq<string>)
    ensures forall i, j :: 0 <= i < j < |Dedup(s)| ==>
              FirstIndex(s, Dedup(s)[i]) < FirstIndex(s, Dedup(s)[j])
    decreases |s|
  {
    if s != [] {
      var front := s[..|s| - 1];
      var x := s[|s| - 1];
      assert s == front + [x];
      var d := Dedup(front);
      DedupFirstAppearanceOrder(front);
      forall i | 0 <= i < |d| ensures FirstIndex(s, d[i]) == FirstIndex(front, d[i]) {
        FirstIndexExtend(front, x, d[i]);
      }
      if x !in d {
        assert FirstIndex(s, x) == |front|;
      }
    }
  }

  lemma DedupSnoc(s: seq<string>, x: string)
    ensures Dedup(s + [x]) == if x in Dedup(s) then Dedup(s) else Dedup(s) + [x]
  {
    assert (s + [x])[..|s|] == s;
  }

  lemma RequestedToolsSnoc(ms: seq<Message>, i: nat)
    requires i < |ms|
    ensures RequestedTools(ms[..i + 1]) ==
            RequestedTools(ms[..i]) + (if HasToolCalls(ms[i]) then CallNames(ms[i].toolCalls) else [])
  {
    assert ms[..i + 1][..i] == ms[..i];
  }

  /** The inner loop of `tools_used`: the names of one message's calls. */
  method AddCallNames(used: seq<string>, ghost seen: seq<string>, calls: seq<ToolCall>)
    returns (used': seq<string>)
    requires used == Dedup(seen)
    ensures used' == Dedup(seen + CallNames(calls))
  {
    used' := used;
    assert seen + CallNames(calls[..0]) == seen;
    for j := 0 to |calls|
      invariant used' == Dedup(seen + CallNames(calls[..j]))
    {
      var name := calls[j].name.GetOr(UnknownTool);
      assert calls[..j + 1][..j] == calls[..j];
      assert seen + CallNames(calls[..j + 1]) == (seen + CallNames(calls[..j])) + [name];
      DedupSnoc(seen + CallNames(calls[..j]), name);
      if name !in used' {
        used' := used' + [name];
      }
    }
    assert calls[..|calls|] == calls;
  }

  /** The `tools_used` loop of `query_with_details`. */
  method ToolsUsed(ms: seq<Message>) returns (used: seq<string>)
    ensures used == Dedup(RequestedTools(ms))
  {
    used := [];
    for i := 0 to |ms|
      invariant used == Dedup(RequestedTools(ms[..i]))
    {
      var msg := ms[i];
      RequestedToolsSnoc(ms, i);
      if HasToolCalls(msg) {
        used := AddCallNames(used, RequestedTools(ms[..i]), msg.toolCalls);
      } else {
        assert RequestedTools(ms[..i]) + [] == RequestedTools(ms[..i]);
      }
    }
    assert ms[..|ms|] == ms;
  }

  /** The details `query_with_details` returns beside the answer. */
  datatype Details = Details(toolsUsed: seq<string>, totalMessages: nat)

  /** A query aborted by the recursion limit. */
  const RecursionError := "Recursion limit of 25 reached without hitting a stop condition."

  class AgenticRagAgent {
    const tools: seq<ToolAdapter>
    const graph: Graph.NodeFunctions

    ghost predicate Valid() {
      |tools| > 0
    }

    /** Sets `tools` and `graph` once; `graph` is `create_graph` over oracles
        already bound to those tools. */
    constructor (tools: seq<ToolAdapter>, oracles: Graph.Oracles)
      requires |tools| > 0
      ensures Valid() && this.tools == tools && graph == Graph.CreateGraph(oracles)
    {
      this.tools := tools;
      graph := Graph.CreateGraph(oracles);
    }

    /** `__init__`: fails exactly when `_initialize_tools` raises. */
    static method Create(url: Option<ToolAdapter>, pdf: Option<ToolAdapter>, text: Option<ToolAdapter>,
                         wikipedia: Option<ToolAdapter>, arxiv: Option<ToolAdapter>, web: Option<ToolAdapter>,
                         oracles: Graph.Oracles)
      returns (r: Result<AgenticRagAgent, string>)
      ensures InitializeTools(url, pdf, text, wikipedia, arxiv, web).Err? <==> r.Err?
      ensures r.Err? ==> r.error == NoToolsError
      ensures r.Ok? ==> r.value.Valid() && r.value.tools == InitializeTools(url, pdf, text, wikipedia, arxiv, web).value
      ensures r.Ok? ==> r.value.graph == Graph.CreateGraph(oracles)
    {
      var built := InitializeTools(url, pdf, text, wikipedia, arxiv, web);
      match built {
        case Err(e) => r := Err(e);
        case Ok(tools) =>
          var agent := new AgenticRagAgent(tools, oracles);
          r := Ok(agent);
      }
    }

    /** `get_tool_count`. */
    function GetToolCount(): (n: nat)
      requires Valid()
      ensures n == |tools| && n >= 1
    {
      |tools|
    }

    /** `query`: runs the graph on the question alone and extracts the answer;
        an aborted run raises. */
    method Query(question: string) returns (r: Result<string, string>)
      ensures match Graph.Invoke(graph, [Human(question)])
              case Completed(final, _) => r == Ok(Response(final))
              case RecursionLimitReached => r == Err(RecursionError)
    {
      var run := new Graph.GraphRun(graph, [Human(question)]);
      var outcome := run.Run();
      match outcome {
        case Completed(final, _) =>
          var answer := ExtractResponse(final);
          r := Ok(answer);
        case RecursionLimitReached =>
          r := Err(RecursionError);
      }
    }

    /** `query_with_details`: one run; the answer equals what `query` returns
        for the same run, `tools_used` is every requested tool name once in
        order of first request, and `total_messages` the final length. */
    method QueryWithDetails(question: string) returns (r: Result<(string, Details), string>)
      ensures match Graph.Invoke(graph, [Human(question)])
              case Completed(final, _) =>
                r == Ok((Response(final), Details(Dedup(RequestedTools(final)), |final|)))
              case RecursionLimitReached => r == Err(RecursionError)
    {
      var run := new Graph.GraphRun(graph, [Human(question)]);
      var outcome := run.Run();
      match outcome {
        case Completed(final, _) =>
          var used := ToolsUsed(final);
          var answer := ExtractResponse(final);
          r := Ok((answer, Details(used, |final|)));
        case RecursionLimitReached =>
          r := Err(RecursionError);
      }
    }
  }
}
