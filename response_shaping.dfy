/** The record `generate_response` returns, for a reply or for any failure (app.py:245-258). */
module ResponseShaping {
  import opened Wrappers
  import opened KnowledgeSearch

  const ApologyPrefix: string := "I apologize, but I encountered an error while processing your request: "

  /** The answer to one chat request: `response`, `knowledge_base_sources`, `success` and, on failure, `error`. */
  datatype ChatResult = ChatResult(
    response: string,
    sources: seq<KnowledgeDocument>,
    success: bool,
    error: Option<string>)

  /**
   * A reply keeps the documents it was grounded on; a failure, whatever raised
   * it, drops them and carries its text both as the error and after the apology.
   */
  function ShapeResult(outcome: Result<string, string>, documents: seq<KnowledgeDocument>): (r: ChatResult)
    ensures r.success <==> outcome.Success?
    ensures outcome.Success? ==> r.response == outcome.value && r.sources == documents && r.error == None
    ensures outcome.Failure? ==>
      r.sources == [] && r.error == Some(outcome.error) && r.response == ApologyPrefix + outcome.error
  {
    match outcome
    case Success(text) => ChatResult(text, documents, true, None)
    case Failure(msg) => ChatResult(ApologyPrefix + msg, [], false, Some(msg))
  }
}
