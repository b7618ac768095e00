/** Chat messages (`utils/gpt_conversation_handler.py`): the three roles, a
    message built from a role member or a role string, and the list of
    `{"role": ..., "content": ...}` entries a conversation becomes. */
module Conversation {
  import opened Py

  datatype Role = User | System | Assistant

  /** `Role.X.value`. */
  function RoleValue(r: Role): string {
    match r
    case User => "user"
    case System => "system"
    case Assistant => "assistant"
  }

  /** `Role(s)`: lookup by value, exact and case-sensitive; any other string
      raises ValueError. */
  function RoleFromValue(s: string): (r: Result<Role>)
    ensures r.Ok? <==> s in {"user", "system", "assistant"}
    ensures r.Ok? ==> RoleValue(r.value) == s
    ensures r.Err? ==> r.error == ValueError(s)
  {
    if s == "user" then Ok(User)
    else if s == "system" then Ok(System)
    else if s == "assistant" then Ok(Assistant)
    else Err(ValueError(s))
  }

  /** Every member is found again from its value, and no two members share a value. */
  lemma RoleRoundTrip(r: Role, r': Role)
    ensures RoleFromValue(RoleValue(r)) == Ok(r)
    ensures RoleValue(r) == RoleValue(r') ==> r == r'
  {
  }

  /** The role argument of `create_message`: a member, or a string. */
  datatype RoleArg = Member(role: Role) | Text(value: string)

  /** `GPTMessage(role, content)`. */
  datatype Message = Message(role: Role, content: string)

  /** `create_message(role, content)`: keep a member, convert a string by
      value lookup; the content is stored as given. */
  function CreateMessage(role: RoleArg, content: string): (r: Result<Message>)
    ensures role.Member? ==> r == Ok(Message(role.role, content))
    ensures role.Text? ==> (r.Ok? <==> role.value in {"user", "system", "assistant"})
    ensures role.Text? && r.Ok? ==> RoleValue(r.value.role) == role.value && r.value.content == content
    ensures role.Text? && r.Err? ==> r.error == ValueError(role.value)
  {
    match role
    case Member(m) => Ok(Message(m, content))
    case Text(s) =>
      match RoleFromValue(s)
      case Err(e) => Err(e)
      case Ok(m) => Ok(Message(m, content))
  }

  /** `{"role": role.value, "content": content}`. */
  datatype ChatEntry = ChatEntry(role: string, content: string)

  /** `create_conversation(messages)`: one entry per message, in order. */
  function CreateConversation(messages: seq<Message>): (entries: seq<ChatEntry>)
    ensures |entries| == |messages|
    ensures forall i :: 0 <= i < |messages| ==>
              entries[i].role in {"user", "system", "assistant"} && entries[i].content == messages[i].content
  {
    seq(|messages|, i requires 0 <= i < |messages| => ChatEntry(RoleValue(messages[i].role), messages[i].content))
  }

  /** The entries carry everything: building a message back from each entry's
      role string and content gives the original messages. */
  lemma ConversationRoundTrip(messages: seq<Message>)
    ensures var entries := CreateConversation(messages);
      forall i :: 0 <= i < |messages| ==>
        CreateMessage(Text(entries[i].role), entries[i].content) == Ok(messages[i])
  {
    var entries := CreateConversation(messages);
    forall i | 0 <= i < |messages|
      ensures CreateMessage(Text(entries[i].role), entries[i].content) == Ok(messages[i])
    {
      RoleRoundTrip(messages[i].role, messages[i].role);
    }
  }
}
