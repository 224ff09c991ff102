/** The conversation that every node of the graph reads and appends to, and
    the two ways the nodes look into it: the question and the document. */
module Messages {
  import opened Wrappers

  /** One tool-call request inside an assistant message; a call may lack a name. */
  datatype ToolCall = ToolCall(name: Option<string>, args: string)

  /** `HumanMessage`, `AIMessage` (with its `tool_calls`) and `ToolMessage`. */
  datatype Message =
    | Human(content: string)
    | AI(content: string, toolCalls: seq<ToolCall>)
    | Tool(name: string, content: string)

  /** `hasattr(msg, 'tool_calls') and msg.tool_calls`: only assistant messages
      carry tool calls, and an empty list is falsy. */
  predicate HasToolCalls(m: Message) {
    m.AI? && |m.toolCalls| > 0
  }

  /** The message lists that the relevance gate, `generate` and `rewrite` see:
      they index `messages[-1]` and `messages[0]`, so the list is never empty. */
  type Conversation = ms: seq<Message> | |ms| > 0 witness [Human("")]

  /** What `invoke` on a chat model returns: an assistant message. */
  type Reply = m: Message | m.AI? witness AI("", [])

  /** The position of the last human message, or -1 when there is none. */
  function LastHuman(ms: seq<Message>): (i: int)
    ensures -1 <= i < |ms|
    ensures i >= 0 ==> ms[i].Human?
    ensures forall j :: i < j < |ms| ==> !ms[j].Human?
  {
    if ms == [] then -1
    else if ms[|ms| - 1].Human? then |ms| - 1
    else LastHuman(ms[..|ms| - 1])
  }

  /** `[m for m in messages if isinstance(m, HumanMessage)]`: only human
      messages, none exactly when the conversation has none, and the last one
      is the conversation's last human message. */
  function UserMessages(ms: seq<Message>): (user: seq<Message>)
    ensures forall k :: 0 <= k < |user| ==> user[k].Human?
    ensures |user| == 0 <==> LastHuman(ms) == -1
    ensures |user| > 0 ==> user[|user| - 1] == ms[LastHuman(ms)]
  {
    if ms == [] then []
    else
      var front := ms[..|ms| - 1];
      var m := ms[|ms| - 1];
      var user := UserMessages(front);
      if m.Human? then user + [m] else user
  }

  /** The question: the content of the last human message, or the content of
      the first message when there is no human message at all. */
  function Question(ms: Conversation): (q: string)
    ensures (exists i :: 0 <= i < |ms| && ms[i].Human?) ==>
              exists i :: 0 <= i < |ms| && ms[i].Human? && q == ms[i].content
                          && (forall j :: i < j < |ms| ==> !ms[j].Human?)
    ensures (forall i :: 0 <= i < |ms| ==> !ms[i].Human?) ==> q == ms[0].content
  {
    var user := UserMessages(ms);
    if |user| > 0 then
      assert ms[LastHuman(ms)].Human?;
      user[|user| - 1].content
    else ms[0].content
  }

  /** The document: the content of the last message, whatever kind it is. */
  function Document(ms: Conversation): string {
    ms[|ms| - 1].content
  }

  /** The question does not depend on the messages after the last human one:
      appending a message that is not a human message leaves it unchanged. */
  lemma {:induction false} QuestionIgnoresNonHumanTail(ms: Conversation, m: Message)
    requires !m.Human?
    ensures Question(ms + [m]) == Question(ms)
  {
    var ext := ms + [m];
    assert ext[..|ext| - 1] == ms;
  }
}
