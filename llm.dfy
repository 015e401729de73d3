/** The chat message exchanged with the language-model gateway
    (`Message { role, content }` of models/general/llm.rs, which is not part
    of this model beyond this record). */
module Llm {

  datatype Message = Message(role: string, content: string)

  /** The role of the one message a task request sends. */
  const SystemRole: string := "system"
}
