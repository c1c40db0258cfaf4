/** The language-model boundary shared by the summariser and the drafter: the reply is a
    scripted input, and both agents recover a JSON object from it the same way. */
module Llm {
  import opened Results
  import opened Json

  /** What `model.invoke` produced: the reply's text, or a thrown error (network, quota, a
      non-text reply) that the agent's `try` catches. */
  datatype ModelReply = Replied(content: string) | InvocationFailed

  /** The object the agent parses out of a reply: the greedy brace span, then `JSON.parse`.
      `None` covers every way this can throw before any field is inspected. */
  function ParsedReply(reply: ModelReply, parse: Parser): (r: Option<map<string, JValue>>)
    ensures r.Some? <==>
              && reply.Replied?
              && HasBracePair(reply.content)
              && parse(ExtractJson(reply.content).value).Some?
    ensures r.Some? ==> r == parse(ExtractJson(reply.content).value)
  {
    match reply
    case InvocationFailed => None
    case Replied(content) =>
      match ExtractJson(content)
      case None => None
      case Some(span) => parse(span)
  }
}
