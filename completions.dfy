/**
 * The completion-response objects that the two LLM client libraries return
 * and that the adapters read by direct attribute access:
 * `response.choices[i].message.role` and `.content`.
 */
module Completions {
  import opened PyValues

  /** `choice.message`: the role and content exactly as the library set them (either may be None). */
  datatype ChatMessage = ChatMessage(role: Value, content: Value)

  /** One element of `response.choices`. */
  datatype ChatChoice = ChatChoice(message: ChatMessage)

  /** The canonical `{"role": role, "content": content}` record the adapters produce. */
  function RoleContent(role: Value, content: Value): (d: Value)
    ensures d.Dict? && d.entries.Keys == {StrKey("role"), StrKey("content")}
    ensures d.entries[StrKey("role")] == role && d.entries[StrKey("content")] == content
  {
    Pair("role", role, "content", content)
  }
}
