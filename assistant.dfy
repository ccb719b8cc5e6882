/** get_ai_response: the assistant gateway. The prompt built from the zone, the
    spill and the history summary and the remote chat-completion request are
    outside this model; what the request returned, or the error it raised, is a
    parameter. The gateway always yields a string. */
module AssistantGateway {

  /** What the remote chat-completion call did: returned a message text, or
      raised an exception whose text is `error`. */
  datatype CallOutcome = Answered(text: string) | Raised(error: string)

  /** Returned when no API key is configured (no client exists). */
  const MissingKeyWarning: string :=
    "\U{26A0}\U{FE0F} LLM API key not configured. Set OPENAI_API_KEY in your environment to enable the assistant."

  /** Prefix of the answer when the remote call raised. */
  const ErrorPrefix: string := "\U{26A0}\U{FE0F} Error calling LLM API: "

  /** The answer shown to the operator: the fixed warning without a client, the
      completion text on success, and the marked error text on an exception. */
  function AiResponse(clientConfigured: bool, outcome: CallOutcome): (answer: string)
    ensures !clientConfigured ==> answer == MissingKeyWarning
    ensures clientConfigured && outcome.Answered? ==> answer == outcome.text
    ensures clientConfigured && outcome.Raised? ==>
              |answer| >= |ErrorPrefix| && answer[..|ErrorPrefix|] == ErrorPrefix && answer[|ErrorPrefix|..] == outcome.error
  {
    if !clientConfigured then MissingKeyWarning
    else match outcome
      case Answered(text) => text
      case Raised(error) => ErrorPrefix + error
  }
}
