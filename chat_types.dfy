/** Types shared by the backend controller and the frontend components. */
module ChatTypes {

  datatype Option<+T> = None | Some(value: T)

  /** The two message roles of the chat schema (backend/src/models/chatModel.js). */
  datatype Role = User | AI

  /** One stored message: a role and its text content. */
  datatype Message = Message(role: Role, content: string)

  /** A chat as the list endpoint returns it: its `_id`, an optional `title` (the stored
      schema has none) and its message list, which may be absent. */
  datatype ChatSummary = ChatSummary(id: string, title: Option<string>, messages: Option<seq<Message>>)

  /** JavaScript truthiness of an optional string: present and non-empty. */
  predicate Truthy(s: Option<string>)
  {
    s.Some? && s.value != ""
  }

  /** The first `n` characters of `s`, as `substring(0, n)` and `slice(0, n)` give them. */
  function Prefix(s: string, n: nat): (r: string)
    ensures |r| == if |s| < n then |s| else n
    ensures r <= s
  {
    if |s| <= n then s else s[..n]
  }
}
