/**
 * The tagged outcome that every routing or gateway call of the Brain returns.
 * In the source it is a dictionary whose 'type' key names the variant.
 */
module Outcomes {
  import opened Wrappers

  /** A registered command handler, known only by its identity. */
  datatype Handler = Handler(id: nat)

  /** Whatever a handler returns; the router carries it without looking inside. */
  type Response(==)

  /**
   * Exactly one variant per call. `Llm.text` is optional because the remote
   * message content may be absent; `Command.response` is whatever the handler returned.
   */
  datatype Outcome =
    | Command(handler: Handler, response: Response)
    | Llm(text: Option<string>)
    | FunctionCall(name: string, arguments: string)
    | Error(message: string)

  /** The value of the outcome's 'type' key. */
  function Tag(o: Outcome): string
  {
    match o
    case Command(_, _) => "command"
    case Llm(_) => "llm"
    case FunctionCall(_, _) => "function_call"
    case Error(_) => "error"
  }

  /** The 'type' key alone tells a consumer which variant it holds. */
  lemma TagIdentifiesVariant(a: Outcome, b: Outcome)
    ensures Tag(a) == Tag(b) <==>
      (a.Command? && b.Command?) || (a.Llm? && b.Llm?) ||
      (a.FunctionCall? && b.FunctionCall?) || (a.Error? && b.Error?)
  {
  }
}
