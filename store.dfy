/** The ChatBuddy store: the four tables held in memory, each with its own
    AUTOINCREMENT counter, and a clock for CURRENT_TIMESTAMP that never runs
    backwards. The methods are the INSERT-side operations of main.py and the
    three workflows of its main page (a chat turn, a post, a story); the
    SELECT-side operations are the functions of module Queries, applied to
    the current tables.

    Foreign keys are declared by the schema but not enforced (SQLite leaves
    them off unless asked), so no method checks that a user or chatbot id
    exists before writing a row that refers to it. */
module ChatBuddy {
  import opened Rows
  import opened Queries
  import opened Gemini
  import opened Prompts

  const TravelGuideName := "Travel Guide Bot"
  const TravelGuideInstructions := "You are a knowledgeable travel guide providing information about destinations, itineraries, and cultural tips."
  const CoachName := "Motivational Coach Bot"
  const CoachInstructions := "You are an enthusiastic motivational coach helping users achieve their goals with positive reinforcement."

  /** The (name, instructions) pairs every new account is seeded with. */
  const DefaultBots: seq<(string, string)> :=
    [(TravelGuideName, TravelGuideInstructions), (CoachName, CoachInstructions)]

  /** The chatbot rows seeding gives user userId when the next chatbot id is
      firstId and the clock reads at. */
  function SeedRows(userId: int, firstId: int, at: nat): seq<Chatbot>
  {
    [ Chatbot(firstId, userId, TravelGuideName, TravelGuideInstructions, at),
      Chatbot(firstId + 1, userId, CoachName, CoachInstructions, at) ]
  }

  /** Why a workflow reported an error instead of a response. */
  datatype Failure =
    | MissingChatbot   // no chatbot has the id: reading its instructions raises TypeError
    | ProviderFailure  // the Gemini call raised

  datatype ChatOutcome = NoPrompt | Replied(text: string) | ChatFailed(reason: Failure)

  datatype CreativeOutcome = Generated(text: string) | EmptyGeneration | CreativeFailed(reason: Failure)

  class Store {
    var users: seq<User>
    var chatbots: seq<Chatbot>
    var messages: seq<Message>
    var creativeMessages: seq<CreativeMessage>
    var nextUserId: int
    var nextChatbotId: int
    var nextMessageId: int
    var nextCreativeId: int
    var clock: nat

    /** The table constraints and what AUTOINCREMENT and a clock that never
        runs backwards guarantee. */
    ghost predicate Valid()
      reads this
    {
      && UniqueUsernames(users) && UserIdsBelow(users, nextUserId)
      && ChatbotIdsBelow(chatbots, nextChatbotId) && ChatbotTimesUpTo(chatbots, clock)
      && MessageIdsBelow(messages, nextMessageId) && MessageTimesUpTo(messages, clock)
      && CreativeIdsBelow(creativeMessages, nextCreativeId) && CreativeTimesUpTo(creativeMessages, clock)
    }

    /** create_tables on a fresh database file. */
    constructor ()
      ensures Valid()
      ensures users == [] && chatbots == [] && messages == [] && creativeMessages == []
      ensures nextUserId == 1 && nextChatbotId == 1 && nextMessageId == 1 && nextCreativeId == 1
      ensures clock == 0
    {
      users, chatbots, messages, creativeMessages := [], [], [], [];
      nextUserId, nextChatbotId, nextMessageId, nextCreativeId := 1, 1, 1, 1;
      clock := 0;
    }

    /** Time passes. */
    method Tick(seconds: nat)
      requires Valid()
      modifies this`clock
      ensures Valid()
      ensures clock == old(clock) + seconds
    {
      clock := clock + seconds;
    }

    // -------------------------------------------------------------------
    // Accounts

    /** sign_up. A fresh username gets one user row holding the digest of
        the password and, from the finally clause, the two default
        chatbots; the call returns True. A username already taken makes the
        INSERT raise IntegrityError; the except clause would return False,
        but the finally clause then reads user_id, which was never
        assigned, and the UnboundLocalError it raises replaces that return.
        Nothing is written in that case. */
    method SignUp(username: string, password: string, hash: string -> string) returns (r: Outcome<bool>)
      requires Valid()
      modifies this`users, this`nextUserId, this`chatbots, this`nextChatbotId
      ensures Valid()
      ensures FindUser(old(users), username).Some? ==>
                && r == Raised(UnboundLocalError)
                && users == old(users) && nextUserId == old(nextUserId)
                && chatbots == old(chatbots) && nextChatbotId == old(nextChatbotId)
      ensures FindUser(old(users), username).None? ==>
                && r == Returned(true)
                && users == old(users) + [User(old(nextUserId), username, hash(password))]
                && nextUserId == old(nextUserId) + 1
                && chatbots == old(chatbots) + SeedRows(old(nextUserId), old(nextChatbotId), clock)
                && nextChatbotId == old(nextChatbotId) + 2
      ensures FindUser(old(users), username).None? && (forall b :: b in old(chatbots) ==> b.userId != old(nextUserId)) ==>
                UserChatbots(chatbots, old(nextUserId)) == SeedRows(old(nextUserId), old(nextChatbotId), clock)
    {
      if FindUser(users, username).Some? {
        r := Raised(UnboundLocalError);
        return;
      }
      var userId := nextUserId;
      users := users + [User(userId, username, hash(password))];
      nextUserId := nextUserId + 1;
      CreateDefaultChatbots(userId);
      r := Returned(true);
      var seeded := SeedRows(userId, old(nextChatbotId), clock);
      if forall b :: b in old(chatbots) ==> b.userId != userId {
        UserChatbotsOfNewOwner(old(chatbots), seeded[0], seeded[1]);
        assert old(chatbots) + [seeded[0], seeded[1]] == chatbots;
      }
    }

    /** create_default_chatbots: insert each default (name, instructions)
        pair for the user, in order. */
    method CreateDefaultChatbots(userId: int)
      requires Valid()
      modifies this`chatbots, this`nextChatbotId
      ensures Valid()
      ensures chatbots == old(chatbots) + SeedRows(userId, old(nextChatbotId), clock)
      ensures nextChatbotId == old(nextChatbotId) + |DefaultBots|
    {
      var i := 0;
      while i < |DefaultBots|
        invariant 0 <= i <= |DefaultBots|
        invariant Valid()
        invariant nextChatbotId == old(nextChatbotId) + i
        invariant chatbots == old(chatbots) + SeedRows(userId, old(nextChatbotId), clock)[..i]
      {
        var (name, instructions) := DefaultBots[i];
        CreateChatbot(userId, name, instructions);
        i := i + 1;
      }
    }

    // -------------------------------------------------------------------
    // Chatbots

    /** create_chatbot: one more row, with no check that the owner exists or
        that the name is new. */
    method CreateChatbot(userId: int, name: string, instructions: string)
      requires Valid()
      modifies this`chatbots, this`nextChatbotId
      ensures Valid()
      ensures chatbots == old(chatbots) + [Chatbot(old(nextChatbotId), userId, name, instructions, clock)]
      ensures nextChatbotId == old(nextChatbotId) + 1
    {
      chatbots := chatbots + [Chatbot(nextChatbotId, userId, name, instructions, clock)];
      nextChatbotId := nextChatbotId + 1;
    }

    // -------------------------------------------------------------------
    // Messages

    /** save_message: the INSERT succeeds exactly when the role text passes
        CHECK(role IN ('user', 'bot')); otherwise it raises IntegrityError
        and the table is unchanged. */
    method SaveMessage(chatbotId: int, content: string, role: string) returns (r: Outcome<()>)
      requires Valid()
      modifies this`messages, this`nextMessageId
      ensures Valid()
      ensures ParseRole(role).None? ==>
                r == Raised(IntegrityError) && messages == old(messages) && nextMessageId == old(nextMessageId)
      ensures ParseRole(role).Some? ==>
                && r == Returned(())
                && messages == old(messages) + [Message(old(nextMessageId), chatbotId, content, ParseRole(role).value, clock)]
                && nextMessageId == old(nextMessageId) + 1
    {
      var checked := ParseRole(role);
      if checked.None? {
        r := Raised(IntegrityError);
        return;
      }
      messages := messages + [Message(nextMessageId, chatbotId, content, checked.value, clock)];
      nextMessageId := nextMessageId + 1;
      r := Returned(());
    }

    // -------------------------------------------------------------------
    // Creative records

    /** save_creative_message: the INSERT succeeds exactly when the context
        text passes CHECK(context IN ('post', 'story')). */
    method SaveCreativeMessage(chatbotId: int, context: string, prompt: string, response: string)
      returns (r: Outcome<()>)
      requires Valid()
      modifies this`creativeMessages, this`nextCreativeId
      ensures Valid()
      ensures ParseContext(context).None? ==>
                && r == Raised(IntegrityError)
                && creativeMessages == old(creativeMessages) && nextCreativeId == old(nextCreativeId)
      ensures ParseContext(context).Some? ==>
                && r == Returned(())
                && creativeMessages == old(creativeMessages)
                     + [CreativeMessage(old(nextCreativeId), chatbotId, ParseContext(context).value, prompt, response, clock)]
                && nextCreativeId == old(nextCreativeId) + 1
    {
      var checked := ParseContext(context);
      if checked.None? {
        r := Raised(IntegrityError);
        return;
      }
      creativeMessages := creativeMessages
        + [CreativeMessage(nextCreativeId, chatbotId, checked.value, prompt, response, clock)];
      nextCreativeId := nextCreativeId + 1;
      r := Returned(());
    }

    // -------------------------------------------------------------------
    // Workflows

    /** One chat turn with chatbot chatbotId. An empty prompt does nothing.
        Otherwise the prompt is saved as a 'user' message first, so it stays
        even when what follows fails. Then the chatbot's instructions are
        read, the stored transcript (which now ends with the prompt) is
        rebuilt into Gemini's history, and the prompt is sent; the call
        takes elapsed seconds. Only a reply is saved, as one 'bot' message
        after the user's; a missing chatbot or a failed call saves nothing
        more. */
    method ChatTurn(chatbotId: int, prompt: string, provider: Provider, elapsed: nat) returns (r: ChatOutcome)
      requires Valid()
      modifies this`messages, this`nextMessageId, this`clock
      ensures Valid()
      ensures prompt == "" ==>
                r == NoPrompt && messages == old(messages) && nextMessageId == old(nextMessageId) && clock == old(clock)
      ensures prompt != "" && FindChatbot(chatbots, chatbotId).None? ==>
                && r == ChatFailed(MissingChatbot)
                && messages == old(messages) + [Message(old(nextMessageId), chatbotId, prompt, UserRole, old(clock))]
                && nextMessageId == old(nextMessageId) + 1 && clock == old(clock)
      ensures prompt != "" && FindChatbot(chatbots, chatbotId).Some? ==>
                var asked := Message(old(nextMessageId), chatbotId, prompt, UserRole, old(clock));
                var history := ToModelHistory(ChatHistory(old(messages) + [asked], chatbotId));
                var reply := provider(FindChatbot(chatbots, chatbotId).value.instructions, history, prompt);
                && clock == old(clock) + elapsed
                && (reply.ProviderError? ==>
                      && r == ChatFailed(ProviderFailure)
                      && messages == old(messages) + [asked] && nextMessageId == old(nextMessageId) + 1)
                && (reply.Reply? ==>
                      && r == Replied(reply.text)
                      && messages == old(messages)
                           + [asked] + [Message(old(nextMessageId) + 1, chatbotId, reply.text, BotRole, clock)]
                      && nextMessageId == old(nextMessageId) + 2)
    {
      if prompt == "" {
        r := NoPrompt;
        return;
      }
      assert ParseRole("user") == Some(UserRole);
      var saved := SaveMessage(chatbotId, prompt, "user");
      var bot := FindChatbot(chatbots, chatbotId);
      if bot.None? {
        r := ChatFailed(MissingChatbot);
        return;
      }
      r := Answer(chatbotId, bot.value.instructions, prompt, provider, elapsed);
    }

    /** The rest of a chat turn once the prompt is stored: rebuild the
        chatbot's transcript into Gemini's history, send it with the
        instructions and the prompt (the call takes elapsed seconds), and
        store a reply as one 'bot' message; a failed call stores nothing. */
    method Answer(chatbotId: int, instructions: string, prompt: string, provider: Provider, elapsed: nat)
      returns (r: ChatOutcome)
      requires Valid()
      modifies this`messages, this`nextMessageId, this`clock
      ensures Valid()
      ensures var reply := provider(instructions, ToModelHistory(ChatHistory(old(messages), chatbotId)), prompt);
              && clock == old(clock) + elapsed
              && (reply.ProviderError? ==>
                    r == ChatFailed(ProviderFailure) && messages == old(messages) && nextMessageId == old(nextMessageId))
              && (reply.Reply? ==>
                    && r == Replied(reply.text)
                    && messages == old(messages) + [Message(old(nextMessageId), chatbotId, reply.text, BotRole, clock)]
                    && nextMessageId == old(nextMessageId) + 1)
    {
      var history := BuildModelHistory(ChatHistory(messages, chatbotId));
      var reply := provider(instructions, history, prompt);
      Tick(elapsed);
      if reply.ProviderError? {
        r := ChatFailed(ProviderFailure);
      } else {
        assert ParseRole("bot") == Some(BotRole);
        var saved := SaveMessage(chatbotId, reply.text, "bot");
        r := Replied(reply.text);
      }
    }

    /** The shape both creative workflows share: read the chatbot's
        instructions, send the prompt with no history (the call takes
        elapsed seconds), and save one record of the given context only when
        the reply has text. An empty reply, a failed call or a missing
        chatbot writes nothing. */
    method GenerateOnce(chatbotId: int, context: Context, promptText: string, provider: Provider, elapsed: nat)
      returns (r: CreativeOutcome)
      requires Valid()
      modifies this`creativeMessages, this`nextCreativeId, this`clock
      ensures Valid()
      ensures FindChatbot(chatbots, chatbotId).None? ==>
                && r == CreativeFailed(MissingChatbot)
                && creativeMessages == old(creativeMessages) && nextCreativeId == old(nextCreativeId)
                && clock == old(clock)
      ensures FindChatbot(chatbots, chatbotId).Some? ==>
                var reply := provider(FindChatbot(chatbots, chatbotId).value.instructions, [], promptText);
                && clock == old(clock) + elapsed
                && (reply.ProviderError? ==>
                      && r == CreativeFailed(ProviderFailure)
                      && creativeMessages == old(creativeMessages) && nextCreativeId == old(nextCreativeId))
                && (reply.Reply? && reply.text == "" ==>
                      && r == EmptyGeneration
                      && creativeMessages == old(creativeMessages) && nextCreativeId == old(nextCreativeId))
                && (reply.Reply? && reply.text != "" ==>
                      && r == Generated(reply.text)
                      && creativeMessages == old(creativeMessages)
                           + [CreativeMessage(old(nextCreativeId), chatbotId, context, promptText, reply.text, clock)]
                      && nextCreativeId == old(nextCreativeId) + 1)
    {
      var bot := FindChatbot(chatbots, chatbotId);
      if bot.None? {
        r := CreativeFailed(MissingChatbot);
        return;
      }
      var reply := provider(bot.value.instructions, [], promptText);
      Tick(elapsed);
      match reply
      case ProviderError =>
        r := CreativeFailed(ProviderFailure);
      case Reply(text) =>
        if text == "" {
          r := EmptyGeneration;
        } else {
          ContextNameRoundTrip(context);
          var saved := SaveCreativeMessage(chatbotId, ContextName(context), promptText, text);
          r := Generated(text);
        }
    }

    /** The "Create Posts" workflow. */
    method GeneratePost(chatbotId: int, topic: string, tone: Tone, length: Length, provider: Provider, elapsed: nat)
      returns (r: CreativeOutcome)
      requires Valid()
      modifies this`creativeMessages, this`nextCreativeId, this`clock
      ensures Valid()
      ensures FindChatbot(chatbots, chatbotId).None? ==>
                && r == CreativeFailed(MissingChatbot)
                && creativeMessages == old(creativeMessages) && nextCreativeId == old(nextCreativeId)
                && clock == old(clock)
      ensures FindChatbot(chatbots, chatbotId).Some? ==>
                var prompt := PostPrompt(topic, tone, length);
                var reply := provider(FindChatbot(chatbots, chatbotId).value.instructions, [], prompt);
                && clock == old(clock) + elapsed
                && (reply.Reply? && reply.text != "" ==>
                      && r == Generated(reply.text)
                      && creativeMessages == old(creativeMessages)
                           + [CreativeMessage(old(nextCreativeId), chatbotId, Post, prompt, reply.text, clock)]
                      && nextCreativeId == old(nextCreativeId) + 1)
                && (reply.Reply? && reply.text == "" ==>
                      && r == EmptyGeneration
                      && creativeMessages == old(creativeMessages) && nextCreativeId == old(nextCreativeId))
                && (reply.ProviderError? ==>
                      && r == CreativeFailed(ProviderFailure)
                      && creativeMessages == old(creativeMessages) && nextCreativeId == old(nextCreativeId))
    {
      r := GenerateOnce(chatbotId, Post, PostPrompt(topic, tone, length), provider, elapsed);
    }

    /** The "Tell a Story" workflow. */
    method GenerateStory(chatbotId: int, genre: Genre, characters: string, plot: string, length: Length,
                         provider: Provider, elapsed: nat)
      returns (r: CreativeOutcome)
      requires Valid()
      modifies this`creativeMessages, this`nextCreativeId, this`clock
      ensures Valid()
      ensures FindChatbot(chatbots, chatbotId).None? ==>
                && r == CreativeFailed(MissingChatbot)
                && creativeMessages == old(creativeMessages) && nextCreativeId == old(nextCreativeId)
                && clock == old(clock)
      ensures FindChatbot(chatbots, chatbotId).Some? ==>
                var prompt := StoryPrompt(length, genre, characters, plot);
                var reply := provider(FindChatbot(chatbots, chatbotId).value.instructions, [], prompt);
                && clock == old(clock) + elapsed
                && (reply.Reply? && reply.text != "" ==>
                      && r == Generated(reply.text)
                      && creativeMessages == old(creativeMessages)
                           + [CreativeMessage(old(nextCreativeId), chatbotId, Story, prompt, reply.text, clock)]
                      && nextCreativeId == old(nextCreativeId) + 1)
                && (reply.Reply? && reply.text == "" ==>
                      && r == EmptyGeneration
                      && creativeMessages == old(creativeMessages) && nextCreativeId == old(nextCreativeId))
                && (reply.ProviderError? ==>
                      && r == CreativeFailed(ProviderFailure)
                      && creativeMessages == old(creativeMessages) && nextCreativeId == old(nextCreativeId))
    {
      r := GenerateOnce(chatbotId, Story, StoryPrompt(length, genre, characters, plot), provider, elapsed);
    }
  }
}
