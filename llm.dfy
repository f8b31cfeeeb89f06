/**
 * `get_groq_response`: one chat-completion call. The service itself is a parameter — what it
 * replies on this call — so only the wrapper's own effects are modelled: it appends the prompt
 * to the conversation as a user message and never raises.
 */
module Llm {
  datatype Role = System | User | Assistant

  /** One `{"role": ..., "content": ...}` entry of a conversation. */
  datatype Message = Message(role: Role, content: string)

  /** What happens on one call: an answer with its token usage, or an exception and where it was raised. */
  datatype Reply =
    | Replied(content: string, tokens: nat)
    | ClientFailed(message: string)   // creating the client raised; the prompt was not appended yet
    | RequestFailed(message: string)  // the request raised after the prompt was appended

  /** The model the wrapper asks. */
  const ModelName := "llama-3.3-70b-versatile"

  /** The result of one call: the conversation afterwards, the response text and the tokens used. */
  datatype Answer = Answer(messages: seq<Message>, text: string, tokens: nat)

  /**
   * `get_groq_response(prompt, messages)`. The conversation keeps everything it had and gains at
   * most the prompt; a failure yields `"Error: " + message` and zero tokens instead of raising.
   */
  function Ask(messages: seq<Message>, prompt: string, reply: Reply): (a: Answer)
    ensures messages <= a.messages && |a.messages| <= |messages| + 1
    ensures |a.messages| == |messages| + 1 ==> a.messages[|messages|] == Message(User, prompt)
    ensures !reply.ClientFailed? <==> a.messages == messages + [Message(User, prompt)]
    ensures reply.Replied? ==> a.text == reply.content && a.tokens == reply.tokens
    ensures !reply.Replied? ==> a.text == "Error: " + reply.message && a.tokens == 0
  {
    match reply
    case ClientFailed(m) => Answer(messages, "Error: " + m, 0)
    case RequestFailed(m) => Answer(messages + [Message(User, prompt)], "Error: " + m, 0)
    case Replied(content, tokens) => Answer(messages + [Message(User, prompt)], content, tokens)
  }
}
