/** The relevance gate: the conditional edge taken after retrieval. */
module Edges {
  import opened Messages

  /** The gate's two route labels. */
  datatype Decision = Generate | Rewrite {
    function Label(): (s: string)
      ensures s == "generate" || s == "rewrite"
      ensures (s == "generate") == Generate?
    {
      if Generate? then "generate" else "rewrite"
    }
  }

  /** `grade_documents`: asks the structured-output relevance-grading chain,
      given the question and the document, for a `binary_score`; exactly the
      score "yes" routes to `generate`, every other score (including "Yes" or
      "") to `rewrite`. The conversation itself is only read. */
  function GradeDocuments(score: (string, string) -> string, ms: Conversation): (d: Decision)
    ensures d.Generate? <==> score(Question(ms), ms[|ms| - 1].content) == "yes"
    ensures d.Rewrite? <==> score(Question(ms), ms[|ms| - 1].content) != "yes"
  {
    var binaryScore := score(Question(ms), Document(ms));
    if binaryScore == "yes" then Generate else Rewrite
  }
}
