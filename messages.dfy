/** Chat turns exchanged with the language model, as the JSON dictionaries `{"role": …, "content": …}`. */
module Messages {

  /** Roles are free strings: the HTTP API accepts whatever the client sends. */
  const USER := "user"
  const SYSTEM := "system"
  const ASSISTANT := "assistant"

  /** The assistant's opening line, in both front ends. */
  const GREETING := "Hello! I am your AI Assistant. How can I help you today?"

  datatype Message = Message(role: string, content: string)

  predicate HasRole(h: seq<Message>, role: string)
  {
    exists k :: 0 <= k < |h| && h[k].role == role
  }
}
