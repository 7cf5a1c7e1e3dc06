/** The values exchanged with the remote chat-completion endpoint, shared by the
    three pages. */
module Messages {

  /** The roles the completion protocol understands. */
  datatype Role = System | User | Assistant

  /** One role-tagged turn, `{"role": ..., "content": ...}` in the source. */
  datatype Message = Message(role: Role, content: string)

  /** The lower-case role name the pages store in each message dictionary. */
  function RoleName(role: Role): string
  {
    match role
    case System => "system"
    case User => "user"
    case Assistant => "assistant"
  }

  /** What the single remote call gives back: the first choice's text, a choice
      whose content is absent (`None`), or an exception raised by the client. */
  datatype Reply = Content(text: string) | NoContent | Failed(message: string)

  /** The model every page asks for. */
  const ModelId: string := "llama-3.3-70b-versatile"

  /** One call to the endpoint: the model and the ordered context. The sampling
      temperature is a float passed through untouched and is not part of the model. */
  datatype Request = Request(model: string, messages: seq<Message>)

  datatype Option<T> = None | Some(value: T)
}
