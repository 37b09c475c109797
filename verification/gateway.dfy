/**
 * Outcome shaping of the two LLM gateway calls of the Brain. The request sent to the
 * remote completion service is not modelled; its reply, or the exception raised while
 * obtaining and reading it, is the input.
 */
module Gateway {
  import opened Wrappers
  import opened Outcomes

  /** A function-call directive: the function's name and its serialized, unparsed arguments. */
  datatype Call = Call(name: string, arguments: string)

  /** The first choice's message: optional text content and an optional function call. */
  datatype Message = Message(content: Option<string>, functionCall: Option<Call>)

  /** What the remote call produced: a message, or an `Exception` whose text is `detail`. */
  datatype Reply = Completed(message: Message) | Raised(detail: string)

  const LlmErrorPrefix: string := "Error communicating with LLM: "
  const FunctionErrorPrefix: string := "Error with function calling: "

  predicate HasPrefix(s: string, prefix: string)
  {
    |prefix| <= |s| && s[..|prefix|] == prefix
  }

  /** The exception text carried by an error message, when the message starts with `prefix`. */
  function ErrorDetail(prefix: string, message: string): (d: Option<string>)
    ensures d.Some? <==> HasPrefix(message, prefix)
    ensures d.Some? ==> prefix + d.value == message
  {
    if HasPrefix(message, prefix) then Some(message[|prefix|..]) else None
  }

  /**
   * Plain completion: a reply becomes an `llm` outcome carrying the message content;
   * any `Exception` becomes an `error` outcome instead of escaping.
   */
  function RouteToLlm(reply: Reply): (r: Outcome)
    ensures r.Llm? || r.Error?
    ensures r.Error? <==> reply.Raised?
    ensures reply.Completed? ==> r.text == reply.message.content
    ensures reply.Raised? ==> ErrorDetail(LlmErrorPrefix, r.message) == Some(reply.detail)
  {
    match reply
    case Completed(m) => Llm(m.content)
    case Raised(e) => Error(LlmErrorPrefix + e)
  }

  /**
   * Function-calling completion: a message that requests a function becomes a
   * `function_call` outcome with the arguments passed through unparsed; any other
   * message becomes an `llm` outcome; any `Exception` an `error` outcome instead of escaping.
   */
  function FunctionCallToLlm(reply: Reply): (r: Outcome)
    ensures r.Llm? || r.FunctionCall? || r.Error?
    ensures r.Error? <==> reply.Raised?
    ensures r.FunctionCall? <==> reply.Completed? && reply.message.functionCall.Some?
    ensures r.FunctionCall? ==> Call(r.name, r.arguments) == reply.message.functionCall.value
    ensures r.Llm? ==> r.text == reply.message.content
    ensures reply.Raised? ==> ErrorDetail(FunctionErrorPrefix, r.message) == Some(reply.detail)
  {
    match reply
    case Completed(m) =>
      (match m.functionCall
       case Some(c) => FunctionCall(c.name, c.arguments)
       case None => Llm(m.content))
    case Raised(e) => Error(FunctionErrorPrefix + e)
  }

  /** On a reply that requests no function the two gateway calls give the same outcome. */
  lemma GatewaysAgreeWithoutFunctionCall(reply: Reply)
    requires reply.Completed? && reply.message.functionCall.None?
    ensures FunctionCallToLlm(reply) == RouteToLlm(reply)
  {
  }

  /** An error message names the gateway it came from: no message carries both prefixes. */
  lemma ErrorPrefixesExclusive(message: string)
    ensures !(HasPrefix(message, LlmErrorPrefix) && HasPrefix(message, FunctionErrorPrefix))
  {
    if HasPrefix(message, LlmErrorPrefix) {
      assert message[6] == LlmErrorPrefix[6] != FunctionErrorPrefix[6];
    }
  }

  /** Hence an exception on the plain path never reads as one on the function-calling path. */
  lemma GatewayErrorsDistinguishable(d1: string, d2: string)
    ensures RouteToLlm(Raised(d1)) != FunctionCallToLlm(Raised(d2))
  {
    var m := LlmErrorPrefix + d1;
    assert HasPrefix(m, LlmErrorPrefix);
    ErrorPrefixesExclusive(m);
  }
}
