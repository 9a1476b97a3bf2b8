# ChatBuddy store and generation workflows, in Dafny

ChatBuddy is a Streamlit application. Users sign up and log in. Each user owns
"chatbots", which are personas defined by a name and a system instruction.
Users chat with a chatbot through Gemini, or have it write a post or a story.
All state lives in four SQLite tables: `users`, `chatbots`, `messages` and
`creative_messages`.

This project models that store and the workflows built on it:

- `rows.dfy` (module `Rows`): the rows of the four tables as records. The two
  `CHECK` enumerations become the datatypes `Role` and `Context`, with the
  parsers that accept or reject a role or context text.
- `queries.dfy` (module `Queries`): every `SELECT` as a function over the
  current table. This covers `log_in`, `get_user_chatbots`,
  `get_chat_history`, `get_creative_history` and the lookup of a chatbot by
  id. It also holds the table invariants and the lemmas about these
  functions: ordering, what an append does to each query, and log-in after
  sign-up.
- `gemini.dfy` (module `Gemini`): the boundary with the model. Gemini is a
  `Provider` parameter, a total function from (instructions, history, prompt)
  to `Reply(text) | ProviderError`. The module also holds the mapping from
  stored roles to Gemini roles, and the loop that rebuilds Gemini's history
  from the transcript.
- `prompts.dfy` (module `Prompts`): the post and story prompt strings, with
  parsers. Round-trip lemmas show that a stored prompt gives back the choices
  that built it.
- `store.dfy` (module `ChatBuddy`): class `Store`. Its fields are the four
  tables as sequences, one AUTOINCREMENT counter per table, and a clock that
  never runs backwards. Its methods are the writing operations and the three
  workflows. Each workflow method states the complete new state on every path.
- `scenarios.dfy` (module `Scenarios`): client methods. They show what a
  caller can conclude from the contracts alone about sign-up, log-in, adding
  a chatbot, a first chat exchange and an empty post.

The model follows what the code does, in these cases:

- `sign_up` with a username that is already taken does not return `False`.
  The `INSERT` raises `IntegrityError`, and the `except` clause prepares to
  return `False`. Then the `finally` clause calls `create_default_chatbots(user_id)`
  while `user_id` is unbound. The resulting `UnboundLocalError` replaces the
  return value. `Store.SignUp` returns `Raised(UnboundLocalError)` and
  leaves every table unchanged.
- Foreign keys are declared but not enforced. No operation checks that the
  user or chatbot an id refers to exists.
- No workflow checks that the active chatbot belongs to the logged-in user.
- In a chat turn, the prompt is saved before the history is rebuilt, so the
  history already ends with the prompt (`Gemini.HistoryEndsWithPrompt`).
  `send_message` then sends the same prompt once more.

`created_at` has one-second resolution, so rows can share a timestamp.
SQLite does not fix the order of such rows. The model breaks ties by
insertion order for `ASC` and by reverse insertion order for `DESC`. Tables are kept in insertion order, which is also id
order. `ORDER BY created_at ASC` therefore returns the matching rows in table
order, and `DESC` returns them in reverse. The lemmas `ChatHistoryAscending`
and `CreativeHistoryDescending` prove these orders from the store invariant
that timestamps never decrease along a table.

## Model

| member | source | states |
|---|---|---|
| `Rows.ParseRole` | main.py:42 | a role text is admitted exactly when it is 'user' or 'bot', and then names that role |
| `Rows.ParseContext` | main.py:52 | a context text is admitted exactly when it is 'post' or 'story', and then names that context |
| `Rows.RoleNameRoundTrip` | main.py:42 | every stored role reads back as itself |
| `Rows.ContextNameRoundTrip` | main.py:52 | every stored context reads back as itself |
| `Queries.FindUser` | main.py:89 | the row found has the username asked for; no row is found only when no row has it |
| `Queries.FindUserAt` | main.py:23 | with unique usernames, looking up a row's username finds exactly that row |
| `Queries.LogIn` | main.py:87-93 | an id comes back only for a row with that username whose digest verifies the password; with unique usernames, None comes back exactly when no such row verifies (unknown name and wrong password alike) |
| `Queries.FindUserAppended` | main.py:74-75 | a username stored after rows that do not use it is found at the new row |
| `Queries.LogInAfterSignUp` | main.py:71-93 | after a fresh username is stored with a digest that verifies the password, logging in with that password returns the new row's id |
| `Queries.FindChatbot` | main.py:257 | the chatbot found has the id asked for; none is found only when no row has it |
| `Queries.FindChatbotAt` | main.py:29 | ids are a primary key: looking up a stored row's id returns that row |
| `Queries.UserChatbots` | main.py:107-110 | the listing holds exactly the chatbots whose user_id is the user's |
| `Queries.UserChatbotsAppend` | main.py:112-117 | creating a chatbot appends it to its owner's listing and leaves every other listing unchanged |
| `Queries.UserChatbotsOfNewOwner` | main.py:95-105 | a user with no chatbots who then gets two lists exactly those two, in order |
| `Queries.ChatHistory` | main.py:126-134 | the history holds exactly the messages with that chatbot_id |
| `Queries.ChatHistoryAppend` | main.py:119-124 | saving a message appends it to the end of its chatbot's history and leaves other histories unchanged |
| `Queries.TurnInHistory` | main.py:254-280 | after a turn, the chatbot's history ends with the user's message followed by the reply, if any; other chatbots' histories are unchanged |
| `Queries.ChatHistoryAscending` | main.py:128-132 | the history is in ascending created_at order when table timestamps never decrease |
| `Queries.CreativeHistory` | main.py:145-153 | the history holds exactly the records with that chatbot_id and that context text |
| `Queries.CreativeHistoryAppend` | main.py:136-143 | a newly saved matching record comes first in the history; others leave it unchanged |
| `Queries.CreativeHistoryDescending` | main.py:147-151 | the history is newest first when table timestamps never decrease |
| `Queries.CreativeContextsSeparate` | main.py:149 | the post history holds only posts and the story history only stories |
| `Gemini.ModelHistoryLength` | main.py:264-267 | the rebuilt history has one entry per stored message |
| `Gemini.ModelHistoryAt` | main.py:264-267 | entry k has role 'user' exactly when message k has role 'user', and 'model' exactly when it has 'bot'; its only part is the message content |
| `Gemini.ModelHistoryAppend` | main.py:267 | rebuilding a transcript with one more message appends one more entry |
| `Gemini.BuildModelHistory` | main.py:264-267 | the loop yields the rebuilt history of the whole transcript |
| `Gemini.HistoryEndsWithPrompt` | main.py:254-271 | once the prompt is saved, the last entry of the history sent to Gemini is {'user', [prompt]} |
| `Prompts.ToneWordIsLowered` | main.py:288 | each tone's spelling in the prompt is its select-box label lower-cased |
| `Prompts.LengthWordIsLowered` | main.py:289 | each length's spelling is its label lower-cased |
| `Prompts.GenreWordIsLowered` | main.py:327 | each genre's spelling is its label lower-cased ('sci-fi') |
| `Prompts.PostPromptRoundTrip` | main.py:301 | a post prompt gives back the topic, tone and length that built it |
| `Prompts.StoryPromptRoundTrip` | main.py:342 | a story prompt gives back its length and genre, followed by the characters, ". Plot elements: " and the plot |
| `ChatBuddy.Store.constructor` | main.py:18-61 | fresh tables are empty, with every id counter at 1 |
| `ChatBuddy.Store.Tick` | main.py:33 | the clock behind CURRENT_TIMESTAMP only moves forward; the table invariants hold |
| `ChatBuddy.Store.SignUp` | main.py:71-85 | fresh username: exactly one user row with the digest of the password, then the two default chatbots owned by it, and True; a new owner then lists exactly those two. Taken username: UnboundLocalError and no table changes |
| `ChatBuddy.Store.CreateDefaultChatbots` | main.py:95-105 | appends 'Travel Guide Bot' and then 'Motivational Coach Bot', each with its fixed instructions, owned by the user |
| `ChatBuddy.Store.CreateChatbot` | main.py:112-117 | appends exactly one chatbot with the given owner, name and instructions, whatever names exist |
| `ChatBuddy.Store.SaveMessage` | main.py:119-124 | appends one message exactly when the role is 'user' or 'bot'; any other role raises IntegrityError and changes nothing |
| `ChatBuddy.Store.SaveCreativeMessage` | main.py:136-143 | appends one record exactly when the context is 'post' or 'story'; otherwise IntegrityError and nothing changes |
| `ChatBuddy.Store.ChatTurn` | main.py:248-283 | an empty prompt changes nothing. Otherwise the 'user' message is always saved first. Gemini gets the chatbot's instructions, the rebuilt history and the prompt. Only a reply adds one 'bot' message with its text, right after the user's. A missing chatbot or a failed call adds nothing more. |
| `ChatBuddy.Store.Answer` | main.py:260-283 | Gemini gets the instructions, the chatbot's stored transcript rebuilt into its history, and the prompt; the clock advances by the call's duration; a reply is stored as exactly one 'bot' message with its text and reported, a failed call stores nothing |
| `ChatBuddy.Store.GenerateOnce` | main.py:292-312 | Gemini gets the instructions, an empty history and the prompt. One record with the prompt and the response is saved only when the response is non-empty. An empty response, a failed call or a missing chatbot writes nothing. |
| `ChatBuddy.Store.GeneratePost` | main.py:292-312 | as above, with context 'post' and the post prompt built from topic, tone and length |
| `ChatBuddy.Store.GenerateStory` | main.py:333-354 | as above, with context 'story' and the story prompt built from length, genre, characters and plot |

## Left out

- The Streamlit interface is not modelled: pages, forms, select boxes, the option menu, messages shown to the user, and the `st.session_state` cache of messages (main.py:156-368). Only each workflow's effect on the store and its outcome are modelled.
- SQLite connections are not modelled (opening, committing, closing, and the connection `get_user_chatbots` never closes). The tables are values held in memory.
- bcrypt is not modelled. `SignUp` takes the hash as a parameter, and log-in takes the verification as a parameter. Salting is random in the source, but one sign-up calls the hash function only once, so a function parameter captures what that call stores.
- The Gemini call is a `Provider` parameter. The model name, the spinner and the text of error messages are not modelled. Any exception from the call, including one from reading `response.text`, is `ProviderError`.
- `NOT NULL` constraints are not modelled: model strings cannot be null.
- Wall-clock time is a counter. `Tick` advances it between operations. A workflow's `elapsed` argument advances it by the duration of the model call.
- `.lower()` on the select-box labels is modelled as fixed lower-case spellings. `Prompts.Lower` (ASCII) ties those spellings to the labels; general Unicode case mapping is not modelled.
- The order of rows with equal `created_at` is not fixed by SQLite; the model assumes insertion order for `ASC` and reverse insertion order for `DESC` (see above).
- `get_user_chatbots` (main.py:109) has no `ORDER BY`, so SQL leaves its row order open. `Queries.UserChatbots` assumes rowid order, which is the order a full scan of this table yields in SQLite. The "in order" parts of `Queries.UserChatbotsOfNewOwner` and `ChatBuddy.Store.SignUp` depend on that assumption.
- `Queries.ChatHistoryAscending`: stated for the store's invariant that timestamps never decrease along a table, not for arbitrary tables.
