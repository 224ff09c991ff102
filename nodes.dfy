/** The `agent`, `generate` and `rewrite` nodes. Each one reads the
    conversation and returns the single message that the graph appends. */
module Nodes {
  import opened Text
  import opened Messages

  /** `agent`: the tool-bound model sees the whole conversation; its reply is
      the one message appended. */
  function Agent(toolModel: seq<Message> -> Reply, ms: seq<Message>): (reply: Message)
    ensures reply.AI? && reply == toolModel(ms)
  {
    toolModel(ms)
  }

  /** `generate`: the RAG chain answers the question from the document (the
      last message); the appended message is an assistant message carrying
      that answer and no tool calls. */
  function Generate(answer: (string, string) -> string, ms: Conversation): (reply: Message)
    ensures reply.AI? && !HasToolCalls(reply)
    ensures reply.content == answer(Question(ms), ms[|ms| - 1].content)
  {
    AI(answer(Question(ms), Document(ms)), [])
  }

  /** The fixed instruction around the question in the rewrite request; its
      wording is not part of this model. */
  datatype PromptTemplate = PromptTemplate(lead: string, trail: string)

  /** The request `rewrite` sends: one human message embedding the question. */
  function RewriteRequest(template: PromptTemplate, question: string): (request: seq<Message>)
    ensures |request| == 1 && request[0].Human?
    ensures Contains(request[0].content, question)
  {
    ContainsInfix(template.lead, question, template.trail);
    [Human(template.lead + question + template.trail)]
  }

  /** `rewrite`: the plain chat model gets only the rewrite request (not the
      conversation); its reply is the one message appended, and the request
      itself is never added to the conversation. */
  function Rewrite(chat: seq<Message> -> Reply, template: PromptTemplate, ms: Conversation): (reply: Message)
    ensures reply.AI? && reply == chat(RewriteRequest(template, Question(ms)))
  {
    chat(RewriteRequest(template, Question(ms)))
  }

  /** The re-phrased question is appended as an assistant message, so the
      question that the gate, `generate` and a later `rewrite` read stays the
      user's own. */
  lemma RewriteKeepsQuestion(chat: seq<Message> -> Reply, template: PromptTemplate, ms: Conversation)
    ensures Question(ms + [Rewrite(chat, template, ms)]) == Question(ms)
  {
    QuestionIgnoresNonHumanTail(ms, Rewrite(chat, template, ms));
  }

  /** Likewise for the agent's reply. */
  lemma AgentKeepsQuestion(toolModel: seq<Message> -> Reply, ms: Conversation)
    ensures Question(ms + [Agent(toolModel, ms)]) == Question(ms)
  {
    QuestionIgnoresNonHumanTail(ms, Agent(toolModel, ms));
  }
}
