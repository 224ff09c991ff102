# Agentic RAG agent — a Dafny model

The repository is a retrieval-augmented question-answering agent built on
LangGraph. A question enters a small graph of four nodes: `agent` (a
tool-bound chat model that may ask for tool calls), `retrieve` (the
framework's `ToolNode`), a relevance gate `grade_documents` that sends the
retrieved text to `generate` (answer from the document) or to `rewrite`
(reformulate the question and go back to `agent`), and `END`. Every
invocation carries a recursion limit of 25. `AgenticRAGAgent` builds the
tool list and the graph once, runs a question through it and reads the
answer and the execution details off the final conversation. A second
variant, `RouterAgent`, classifies the question into one of six sources,
calls that source's tool once and answers from its output. A standalone
debugging copy of the graph adds a guard for an empty input.

The model covers, module by module:

- `Messages` — human, assistant (with tool calls) and tool messages; the
  non-empty `Conversation`; the question rule (last human message, else the
  first message) and the document rule (the last message).
- `Text` — Python's `str.strip()` over Python's whitespace set,
  `startswith` and the `in` substring test.
- `Tools` — a tool as a name and an `invoke` that may fail; the "drop the
  `None`s" filter.
- `Edges` — `grade_documents`.
- `Nodes` — `agent`, `generate`, `rewrite`, each returning the one message
  the graph appends. The re-phrased question of `rewrite` is appended as an
  assistant message: the next `agent` turn sees it, while the question that
  the gate, `generate` and a later `rewrite` read stays the user's own.
- `Graph` — `create_graph`: the builder (`class Workflow`), the wiring
  (`CanFollow`, `Next`), the run as a specification function (`RunFrom`)
  and as a stepping machine (`class GraphRun`) proved to compute it.
- `Agent` — `AgenticRAGAgent`: tool initialisation, `_extract_response`
  (a backward loop), `query`, the `tools_used` nested loop and
  `total_messages` of `query_with_details`, `get_tool_count`.
- `Router` — `RouteQuery`'s labels, `RouterAgent`'s registry, tool
  execution, answer generation, `query` with its truncated context, and
  `get_available_routes`.
- `Debugging` — the debugging copy: five-tool filtering, the guarded
  `agent`, its `generate`, its graph.

Everything the code calls but cannot be seen into is a parameter: the
tool-bound model, `ToolNode`, the relevance-grading chain, the RAG answer chain, the
plain chat model and the rewrite prompt are bundled in `Graph.Oracles`; the
router's structured-output chain and its answer chain are fields of
`Router.RouterAgent`; each tool factory's result is an `Option`. The chat
models (`ChatGroq`, configuration/llm.py:40-42) answer with an assistant
message, so the model calls return `Messages.Reply`.

## Model

| member | source | states |
|---|---|---|
| Text.Strip | src/agent/agent.py:63 | The stripped text has no leading and no trailing whitespace and is no longer than the input. |
| Text.StripIsSlice | src/agent/agent.py:63 | Stripping returns a contiguous slice of the input and removes only whitespace characters on either side. |
| Text.StripIdempotent | src/agent/agent.py:63 | Stripping twice gives the same text as stripping once. |
| Text.ContainsAt | src/agent/agent.py:65 | The substring test holds whenever the pattern occurs at some position. |
| Text.ContainsWitness | src/agent/agent.py:65 | Conversely, whenever the substring test holds the pattern occurs at some position. |
| Text.StartsWith | src/agent/agent.py:65 | Definition of `startswith`: the text begins with the pattern; used by `Agent.Qualifies`. |
| Text.Contains | src/agent/agent.py:65 | Definition of `in` on strings, by recursion on the text; `Text.ContainsAt` and `Text.ContainsWitness` prove it holds exactly when the pattern occurs at some position. |
| Messages.LastHuman | src/edges/edges.py:50-51 | The position found holds a human message and no later message is human; -1 means there is no human message. |
| Messages.UserMessages | src/edges/edges.py:50 | The selected messages are all human; the selection is empty exactly when the conversation has no human message; its last element is the conversation's last human message. |
| Messages.Question | src/edges/edges.py:51 | The question is the content of the last human message, and the first message's content when there is no human message. |
| Messages.QuestionIgnoresNonHumanTail | src/nodes/nodes.py:45-46 | Appending a non-human message (a tool result, an assistant reply) does not change the question. |
| Messages.HasToolCalls | src/agent/agent.py:59 | Definition: only an assistant message with a non-empty tool-call list counts as requesting tools; the partner statements are `Agent.ToolCallTurnIgnored` and `Graph.Next`. |
| Messages.Document | src/edges/edges.py:47-53 | Definition: the document is the content of the last message, whatever its kind; `Edges.GradeDocuments` and `Nodes.Generate` are stated with it. |
| Tools.Built | src/agent/agent.py:41 | The filtered tools are exactly the built ones: each kept tool was built, each built tool is kept, and nothing is kept exactly when nothing was built. |
| Tools.BuiltConcat | src/agent/agent.py:41 | Filtering keeps the original order: filtering a concatenation concatenates the filtered parts. |
| Tools.BuiltPosition | src/agent/agent.py:41 | A built tool lands right after the tools built before it. |
| Agent.InitializeTools | src/agent/agent.py:28-47 | Fails with "No tools were initialized!" exactly when all six factories failed; otherwise returns the non-empty, order-preserving filter of the six results. |
| Agent.Qualifies | src/agent/agent.py:56-67 | Definition of a qualifying message: assistant, no tool calls, non-empty content, non-empty stripped content, and not starting with `<` while containing `</function>`; `Agent.ResponseFromLastQualifying` and `Agent.ResponseFallback` are stated with it. |
| Agent.AgenticRagAgent.Create | src/agent/agent.py:23-26 | Construction fails exactly when tool initialisation fails; a constructed agent holds the initialised tools and the graph `create_graph` builds from the given models. |
| Agent.AgenticRagAgent.constructor | src/agent/agent.py:23-26 | Sets the tools (at least one) and the graph built by `create_graph`, once. |
| Agent.AgenticRagAgent.GetToolCount | src/agent/agent.py:117-119 | The count is the number of initialised tools and is at least one. |
| Agent.Response | src/agent/agent.py:49-70 | The answer is never empty and never starts or ends with whitespace. |
| Agent.ResponseFromLastQualifying | src/agent/agent.py:55-68 | When message `i` qualifies (assistant, no tool calls, non-empty stripped content, not an XML-style tool call) and no later message does, the answer is message `i`'s stripped content. |
| Agent.ResponseFallback | src/agent/agent.py:70 | When no message qualifies the answer is exactly "Sorry, I couldn't generate a response.". |
| Agent.ToolCallTurnIgnored | src/agent/agent.py:59-60 | A message carrying tool calls never supplies the answer: appending one leaves the answer unchanged. |
| Agent.ExtractResponse | src/agent/agent.py:49-70 | The backward loop with its skips and early return computes exactly the answer described by `Response`. |
| Agent.Dedup | src/agent/agent.py:103-104 | The deduplicated names have no repeats and are exactly the names of the input. |
| Agent.CallNames | src/agent/agent.py:102-103 | One name per tool call, in order: the call's own name, or "unknown" when it has none. |
| Agent.RequestedTools | src/agent/agent.py:100-103 | Definition: the call names of every message that requests tools, message by message in conversation order; `Agent.ToolsUsed` is proved to be its deduplication. |
| Agent.DedupFirstAppearanceOrder | src/agent/agent.py:99-105 | The deduplicated names appear in the order of their first appearance in the input. |
| Agent.AddCallNames | src/agent/agent.py:101-104 | The inner loop extends the deduplicated list by one message's call names, a nameless call counting as "unknown". |
| Agent.ToolsUsed | src/agent/agent.py:99-105 | The nested loop yields every requested tool name of the conversation once, in order of first request. |
| Agent.AgenticRagAgent.Query | src/agent/agent.py:72-82 | Runs the graph from the question alone with the limit of 25; a completed run yields the answer extracted from its final conversation, an aborted run yields the recursion error. |
| Agent.AgenticRagAgent.QueryWithDetails | src/agent/agent.py:84-115 | From one run: the same answer `query` gives for that run, the deduplicated requested tool names, and the final number of messages. |
| Edges.Decision.Label | src/edges/edges.py:13 | The gate returns only "generate" or "rewrite", and "generate" exactly for the generate decision. |
| Edges.GradeDocuments | src/edges/edges.py:46-63 | Routes to generate exactly when the relevance-grading score on (question, last message's content) is exactly "yes", and to rewrite on every other score. |
| Nodes.Agent | src/nodes/nodes.py:25-28 | The appended message is the tool-bound model's reply on the whole conversation, an assistant message. |
| Nodes.AgentKeepsQuestion | src/nodes/nodes.py:25-28 | Appending the agent's reply leaves the question unchanged. |
| Nodes.Generate | src/nodes/nodes.py:45-69 | Appends one assistant message without tool calls whose content is the chain's answer on the question and the last message's content. |
| Nodes.RewriteRequest | src/nodes/nodes.py:89-98 | The rewrite request is a single human message that contains the question. |
| Nodes.Rewrite | src/nodes/nodes.py:86-101 | The appended message is the chat model's reply to the rewrite request built from the question, an assistant message; the request itself is not appended. |
| Nodes.RewriteKeepsQuestion | src/nodes/nodes.py:100-101 | The re-phrased question is appended as an assistant message, so the question read afterwards is still the user's own. |
| Graph.CreateGraph | src/graph/graph.py:34-38 | Each node of the graph behaves as the corresponding node function bound to the oracles. |
| Graph.EndOnlyAfterAgentOrGenerate | src/graph/graph.py:44-61 | `END` can follow `agent` or `generate` and nothing else. |
| Graph.CanFollow | src/graph/graph.py:41-61 | Definition of the wiring: `agent` to `retrieve` or `END`, `retrieve` to `generate` or `rewrite`, `generate` to `END`, `rewrite` to `agent`; `Graph.BuildWorkflow` proves the builder declares exactly these edges. |
| Graph.ToolsCondition | src/graph/graph.py:44-51 | Definition of `tools_condition`: the last message requests a tool call; `Graph.Next` routes after `agent` by it. |
| Graph.Execute | src/nodes/nodes.py:28 | `agent`, `generate` and `rewrite` each return exactly one message to append; `retrieve` returns what `ToolNode` returns. |
| Graph.Next | src/graph/graph.py:44-61 | The next node follows a declared edge; after `agent` it is `retrieve` exactly when the last message requests tools; after `retrieve` it is `generate` exactly when the gate says so. |
| Graph.RunFrom | src/agent/agent.py:76-79 | Definition of a run: execute the node, append its messages, follow `Next`, until `END` or the ceiling; `Graph.RunBounds`, `Graph.RunExits` and `Graph.RunFollowsWiring` state its properties and `Graph.GraphRun.Run` is proved to compute it. |
| Graph.Invoke | src/agent/agent.py:76-79 | A completed invocation starts at `agent`, executes between one and 25 nodes, only appends to the input, and moves along declared edges. |
| Graph.RunBounds | src/graph/graph.py:41-61 | A completed run starts at its entry node, executes at most the remaining ceiling of nodes, and only appends to the conversation. |
| Graph.RunExits | src/graph/graph.py:44-60 | A completed run leaves through `generate`, or through `agent` when the last message requests no tool call. |
| Graph.RunFollowsWiring | src/graph/graph.py:44-61 | Consecutive nodes of a completed run are joined by declared edges. |
| Graph.AlwaysRewriteAborts | src/graph/graph.py:61 | If the gate always says rewrite and the model always asks for a tool, the run is aborted by the ceiling instead of looping forever. |
| Graph.Workflow.constructor | src/graph/graph.py:31 | A new builder has no nodes, no entry and no edges. |
| Graph.Workflow.AddNode | src/graph/graph.py:34-38 | Adds one node and changes nothing else. |
| Graph.Workflow.AddEntry | src/graph/graph.py:41 | Sets the entry edge from `START` and changes nothing else. |
| Graph.Workflow.AddEdge | src/graph/graph.py:60-61 | Adds one edge and changes nothing else. |
| Graph.Workflow.AddConditionalEdges | src/graph/graph.py:44-57 | Adds an edge to each possible target and changes nothing else. |
| Graph.BuildWorkflow | src/graph/graph.py:13-66 | The built workflow has the four nodes, enters at `agent`, and has exactly the edges of `CanFollow`. |
| Graph.GraphRun.constructor | src/graph/graph.py:41 | A run starts at `agent` with the input conversation, no steps spent and an empty trace. |
| Graph.GraphRun.Step | src/graph/graph.py:44-61 | One step appends the current node's messages, moves along the edge `Next` chooses, and spends one step; the state stays on the run `Invoke` describes. |
| Graph.GraphRun.Run | src/agent/agent.py:76-79 | Stepping until `END` or the ceiling of 25 yields exactly the outcome `Invoke` specifies. |
| Router.Index | router_agent/router_agent.py:58-68 | Each route has its own position among the six, in the order the registry declares the sources. |
| Router.ParseRoute | router_agent/router_agent.py:29-36 | A string validates as a route exactly when it is one of the six labels, and to the route carrying that label. |
| Router.ParseLabel | router_agent/router_agent.py:29-36 | Every route's label validates back to that route. |
| Router.LabelInjective | router_agent/router_agent.py:29-36 | Distinct routes have distinct labels. |
| Router.Label | router_agent/router_agent.py:29-36 | Definition of the six route labels; `Router.ParseLabel` and `Router.LabelInjective` prove they are distinct and validate back. |
| Router.AllTools | router_agent/router_agent.py:58-65 | The starting dict holds every source once, at its declared position, with what its factory produced. |
| Router.KeepBuiltEntries | router_agent/router_agent.py:68 | The filter keeps only entries whose value is a built tool, holding that tool. |
| Router.KeepBuiltComplete | router_agent/router_agent.py:68 | The filter keeps every entry whose value is not `None`. |
| Router.KeepBuiltOrdered | router_agent/router_agent.py:68 | The filter keeps the order of the entries. |
| Router.KeepBuilt | router_agent/router_agent.py:68 | The comprehension keeps at most the entries it is given; the three lemmas above state what it keeps. |
| Router.InitializeTools | router_agent/router_agent.py:54-71 | The registry has an entry for a source exactly when its tool was built, holding that tool, in the declared order. |
| Router.Lookup | router_agent/router_agent.py:104 | Lookup finds nothing exactly when no key carries the name, and otherwise a tool registered under that name. |
| Router.LookupBuilt | router_agent/router_agent.py:58-71 | Looking up a route's label in the registry finds exactly that route's factory result. |
| Router.AvailableNames | router_agent/router_agent.py:165-167 | The registry's names are exactly the labels of the built sources, each a valid route, each once. |
| Router.Truncate | router_agent/router_agent.py:162 | Text of at most 500 characters is unchanged; longer text becomes its first 500 characters followed by "...", so the result is never longer than 503. |
| Router.NotAvailable | router_agent/router_agent.py:107-108 | Definition of the "Tool '<name>' not available" text that `Router.RouterAgent.ExecuteTool` returns for an absent tool. |
| Router.RouterAgent.constructor | router_agent/router_agent.py:46-52 | The agent holds the registry built from the factory results, the router and the answer chain. |
| Router.RouterAgent.ExecuteTool | router_agent/router_agent.py:102-115 | An absent tool gives "Tool '<name>' not available" without invoking anything; otherwise the tool's result, or "Error executing tool: " and the error when it fails. |
| Router.RouterAgent.GenerateAnswer | router_agent/router_agent.py:117-137 | The chain's answer, or "Error generating answer: " and the error when the chain fails. |
| Router.RouterAgent.Query | router_agent/router_agent.py:139-163 | The route is the router's validated choice; the answer comes from the full output of that route's tool, and the reported context is that output truncated to at most 503 characters. |
| Router.RouterAgent.GetAvailableRoutes | router_agent/router_agent.py:165-167 | The names are the registry's keys in order, exactly the labels of the built sources, each valid and each once. |
| Router.OnlyRoutedToolUsed | router_agent/router_agent.py:157-163 | Only the routed tool matters: two agents that agree on the router, the answer chain and the routed source's tool give the same result. |
| Debugging.InitializeTools | debugging/agentic_rag_agent.py:167-178 | Fails with the longer "No tools were initialized!" message exactly when all five factories failed; otherwise the non-empty, order-preserving filter. |
| Debugging.Agent | debugging/agentic_rag_agent.py:181-204 | An empty conversation gets the fixed guidance message; a non-empty one gets the model's reply on the whole conversation. |
| Debugging.EmptyInputIgnoresModel | debugging/agentic_rag_agent.py:193-198 | On an empty conversation the reply does not depend on the model and requests no tool. |
| Debugging.Generate | debugging/agentic_rag_agent.py:296-330 | Returns the chain's raw text on the question and the last message's content. |
| Debugging.CreateGraph | debugging/agentic_rag_agent.py:379-393 | The debugging graph binds its own `agent` and `generate`, `ToolNode` as `retrieve`, the shared gate and `rewrite`. |
| Debugging.GradeOnExactYes | debugging/agentic_rag_agent.py:270-279 | The debugging gate routes to generate exactly on the score "yes". |
| Debugging.EmptyInputGetsGuidance | debugging/agentic_rag_agent.py:193-198 | Invoked on an empty input the graph runs `agent` once and ends with only the guidance message. |
| Debugging.Invoke | debugging/agentic_rag_agent.py:390-414 | The debugging graph is run by the same state machine, with the same transitions, as `create_graph`'s. |

## Left out

- Tool construction (web and file loading, splitting, vector indexing, embeddings, the Wikipedia, Arxiv and web-search APIs): network and file I/O in foreign libraries; a tool is a name and an `invoke` that may fail, and a factory that fails gives `None`.
- Model configuration (API keys, environment, client construction, temperatures): process state and floating point; every model call is an uninterpreted parameter.
- Prompt wording: opaque strings; the rewrite prompt is a lead and a trail around the question (`Nodes.PromptTemplate`).
- LangGraph internals: `ToolNode` is a parameter returning the messages it appends; `tools_condition` is "the last message has tool calls"; the `add_messages` reducer is plain appending. No guarantee of the library (such as one result per tool call) is claimed.
- Graph.RunFrom: the recursion limit is modelled as at most 25 node executions per invocation, an approximation of the runtime's super-step counting; an aborted run is `RecursionLimitReached`, which `AgenticRagAgent.Query` reports as an error value where the code raises.
- Exceptions from the models in `src` (agent, relevance grading, generate, rewrite) and from the router's routing chain are not modelled: nothing in that code catches them. Only the failures the router code catches (tool execution, answer generation) are modelled, as `Err` values.
- Router.RouterAgent: the routing chain is a parameter returning an already validated route; the structured-output parsing and validation against the six labels is the library's, and `Router.ParseRoute` states what that validation accepts.
- Router.RouterAgent.ExecuteTool: "absent or falsy tool" is modelled as absent only; the registry holds only built tool objects, which are truthy.
- Debugging.CreateGraph: the framework's conversion of the raw string `generate` returns into a message is a parameter `coerce`.
- Debugging: the imperative builder of the debugging file is not modelled separately; it declares the same nodes and edges as `create_graph`, modelled by `Graph.BuildWorkflow`, and the debugging graph runs on `Graph.RunFrom`.
- Agent.AgenticRagAgent.Create: the graph depends on the tools only through `bind_tools(tools)` and `ToolNode(tools)`, which are folded into the `Graph.Oracles` parameters; the model does not relate those oracles to the initialised `tools`.
- The recursion error text (`Agent.RecursionError`) is a stand-in for the framework's `GraphRecursionError`, which `query` lets propagate; the code never produces this text itself.
- Debugging.CreateGraph: the debugging file never invokes its graph; the ceiling of 25 that `Debugging.Invoke` applies is the framework's default, not a value that file sets.
- Message content is a string; content given as a list of parts is not modelled.
- Logging (`print`), the Streamlit UIs, the REPL, the graph export script and the package re-export files: I/O and entry points outside the agents.
- `query` and `query_with_details` each invoke the graph once; that both give the same answer is stated for one run's final conversation, the code runs them as separate invocations.
