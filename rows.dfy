/** Rows of the four SQLite tables of ChatBuddy (users, chatbots, messages,
    creative_messages) as typed records, the two closed enumerations the
    table CHECK constraints enforce, and the outcome types shared by the
    store and its workflows. */
module Rows {

  datatype Option<+T> = None | Some(value: T)

  /** Exceptions the store operations can raise. */
  datatype Error =
    | IntegrityError     // a UNIQUE or CHECK constraint rejected an INSERT
    | UnboundLocalError  // a local variable was read before it was assigned

  /** What a Python call does: return a value, or raise. */
  datatype Outcome<+T> = Returned(value: T) | Raised(error: Error)

  /** users(id, username UNIQUE, password_hash) */
  datatype User = User(id: int, username: string, passwordHash: string)

  /** chatbots(id, user_id, name, instructions, created_at). The owner is any
      integer: the FOREIGN KEY is declared but never enforced. */
  datatype Chatbot = Chatbot(id: int, userId: int, name: string, instructions: string, createdAt: nat)

  /** The values CHECK(role IN ('user', 'bot')) admits. */
  datatype Role = UserRole | BotRole

  /** messages(id, chatbot_id, content, role, created_at) */
  datatype Message = Message(id: int, chatbotId: int, content: string, role: Role, createdAt: nat)

  /** The values CHECK(context IN ('post', 'story')) admits. */
  datatype Context = Post | Story

  /** creative_messages(id, chatbot_id, context, prompt, response, created_at) */
  datatype CreativeMessage =
    CreativeMessage(id: int, chatbotId: int, context: Context, prompt: string, response: string, createdAt: nat)

  /** The text stored in the role column. */
  function RoleName(r: Role): string
  {
    match r
    case UserRole => "user"
    case BotRole => "bot"
  }

  /** The role CHECK constraint: the text is admitted exactly when it is
      'user' or 'bot', and it then names that role. */
  function ParseRole(s: string): (r: Option<Role>)
    ensures r.Some? <==> s == "user" || s == "bot"
    ensures r.Some? ==> RoleName(r.value) == s
  {
    if s == "user" then Some(UserRole)
    else if s == "bot" then Some(BotRole)
    else None
  }

  /** The text stored in the context column. */
  function ContextName(c: Context): string
  {
    match c
    case Post => "post"
    case Story => "story"
  }

  /** The context CHECK constraint: the text is admitted exactly when it is
      'post' or 'story', and it then names that context. */
  function ParseContext(s: string): (r: Option<Context>)
    ensures r.Some? <==> s == "post" || s == "story"
    ensures r.Some? ==> ContextName(r.value) == s
  {
    if s == "post" then Some(Post)
    else if s == "story" then Some(Story)
    else None
  }

  /** Every stored role reads back as itself: the column text and the
      enumeration are in one-to-one correspondence. */
  lemma RoleNameRoundTrip(r: Role)
    ensures ParseRole(RoleName(r)) == Some(r)
  {
  }

  /** Every stored context reads back as itself. */
  lemma ContextNameRoundTrip(c: Context)
    ensures ParseContext(ContextName(c)) == Some(c)
  {
  }
}
