/** The boundary with the Gemini model. The model itself is a black box: a
    Provider maps a system instruction, a chat history and a prompt to a
    reply, which is either text or a failure (any exception raised while
    building the model, sending the message or reading response.text).

    The chat turn rebuilds Gemini's history from the stored transcript,
    renaming roles to Gemini's vocabulary: 'user' stays 'user' and every
    other stored role ('bot') becomes 'model'. */
module Gemini {
  import opened Rows
  import opened Queries

  /** One entry of Gemini's history: {'role': role, 'parts': [text]}. */
  datatype Turn = Turn(role: string, parts: seq<string>)

  datatype Reply = Reply(text: string) | ProviderError

  type Provider = (string, seq<Turn>, string) -> Reply

  /** The entry a stored message becomes. */
  function ToTurn(m: Message): Turn
  {
    Turn(if RoleName(m.role) == "user" then "user" else "model", [m.content])
  }

  /** The history Gemini is given for a stored transcript: each message
      turned into an entry, in transcript order. */
  function ToModelHistory(h: seq<Message>): seq<Turn>
  {
    if h == [] then [] else [ToTurn(h[0])] + ToModelHistory(h[1..])
  }

  /** Entry k of the rebuilt history is message k of the transcript: role
      'user' exactly when the stored role is 'user', 'model' exactly when it
      is 'bot', and the content as its only part. Lengths agree. */
  lemma {:induction false} ModelHistoryAt(h: seq<Message>, k: int)
    requires 0 <= k < |h|
    ensures |ToModelHistory(h)| == |h|
    ensures ToModelHistory(h)[k].role == "user" <==> h[k].role == UserRole
    ensures ToModelHistory(h)[k].role == "model" <==> h[k].role == BotRole
    ensures ToModelHistory(h)[k].parts == [h[k].content]
  {
    ModelHistoryLength(h);
    if k > 0 {
      ModelHistoryAt(h[1..], k - 1);
    }
  }

  /** The rebuilt history has one entry per stored message. */
  lemma {:induction false} ModelHistoryLength(h: seq<Message>)
    ensures |ToModelHistory(h)| == |h|
  {
    if h != [] {
      ModelHistoryLength(h[1..]);
    }
  }

  /** Rebuilding commutes with appending a message at the end. */
  lemma {:induction false} ModelHistoryAppend(h: seq<Message>, m: Message)
    ensures ToModelHistory(h + [m]) == ToModelHistory(h) + [ToTurn(m)]
  {
    if h == [] {
      assert ToModelHistory([m]) == [ToTurn(m)] + ToModelHistory([]);
    } else {
      assert (h + [m])[0] == h[0];
      assert (h + [m])[1..] == h[1..] + [m];
      ModelHistoryAppend(h[1..], m);
    }
  }

  /** The loop at the heart of the chat turn: walk the transcript and append
      one entry per message. */
  method BuildModelHistory(h: seq<Message>) returns (turns: seq<Turn>)
    ensures turns == ToModelHistory(h)
  {
    turns := [];
    var i := 0;
    while i < |h|
      invariant 0 <= i <= |h|
      invariant turns == ToModelHistory(h[..i])
    {
      ModelHistoryAppend(h[..i], h[i]);
      assert h[..i + 1] == h[..i] + [h[i]];
      turns := turns + [ToTurn(h[i])];
      i := i + 1;
    }
    assert h[..i] == h;
  }

  /** The history a chat turn hands to Gemini ends with the prompt itself:
      once the user's message for chatbot c has been appended to the table,
      the last entry of the rebuilt history is {'role': 'user', 'parts':
      [prompt]}. The same prompt is then sent again by send_message. */
  lemma HistoryEndsWithPrompt(ms: seq<Message>, m: Message)
    requires m.role == UserRole
    ensures var turns := ToModelHistory(ChatHistory(ms + [m], m.chatbotId));
            |turns| > 0 && turns[|turns| - 1] == Turn("user", [m.content])
  {
    ChatHistoryAppend(ms, m, m.chatbotId);
    ModelHistoryAppend(ChatHistory(ms, m.chatbotId), m);
  }
}
