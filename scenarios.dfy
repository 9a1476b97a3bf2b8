/** Two client runs of the store, written against the method contracts
    alone: what a caller can conclude about the tables and the queries
    after a short session. */
module Scenarios {
  import opened Rows
  import opened Queries
  import opened Gemini
  import opened Prompts
  import opened ChatBuddy

  /** alice signs up, logs in with the same password and finds her two
      seeded chatbots. The store may already hold other accounts, as long as
      no chatbot refers to the id she is about to get. */
  method NewAccount(store: Store, hash: string -> string, verify: (string, string) -> bool)
    requires store.Valid()
    requires FindUser(store.users, "alice").None?
    requires forall b :: b in store.chatbots ==> b.userId != store.nextUserId
    requires verify("pw1", hash("pw1"))
    modifies store
  {
    var alice, firstBot, users := store.nextUserId, store.nextChatbotId, store.users;
    var signed := store.SignUp("alice", "pw1", hash);
    assert signed == Returned(true);
    LogInAfterSignUp(users, User(alice, "alice", hash("pw1")), "pw1", verify);
    assert LogIn(store.users, "alice", "pw1", verify) == Some(alice);
    assert UserChatbots(store.chatbots, alice) == SeedRows(alice, firstBot, store.clock);
  }

  /** A user adds "Chef Bot"; their listing grows by exactly that chatbot. */
  method AddChefBot(store: Store, userId: int, instructions: string)
    requires store.Valid()
    modifies store
  {
    var chefId, bots, owned := store.nextChatbotId, store.chatbots, UserChatbots(store.chatbots, userId);
    store.CreateChatbot(userId, "Chef Bot", instructions);
    var chef := Chatbot(chefId, userId, "Chef Bot", instructions, store.clock);
    UserChatbotsAppend(bots, chef, userId);
    assert UserChatbots(store.chatbots, userId) == owned + [chef];
    FindChatbotAt(store.chatbots, store.nextChatbotId, |store.chatbots| - 1);
    assert FindChatbot(store.chatbots, chefId) == Some(chef);
  }

  /** "Hello" to a chatbot with no transcript yet, through a model that
      always answers "Hi there": the transcript is then exactly that
      exchange. */
  method FirstExchange(store: Store, chatbotId: int)
    requires store.Valid()
    requires FindChatbot(store.chatbots, chatbotId).Some?
    requires ChatHistory(store.messages, chatbotId) == []
    modifies store
  {
    var stub: Provider := (instructions, history, prompt) => Reply("Hi there");
    var before, firstMessage, now := store.messages, store.nextMessageId, store.clock;
    var hello := Message(firstMessage, chatbotId, "Hello", UserRole, now);
    var outcome := store.ChatTurn(chatbotId, "Hello", stub, 1);
    assert outcome == Replied("Hi there");
    var hiThere := Message(firstMessage + 1, chatbotId, "Hi there", BotRole, store.clock);
    assert store.messages == before + [hello] + [hiThere];
    assert hiThere.createdAt == now + 1;
    TurnInHistory(before, hello, [hiThere]);
    assert ChatHistory(store.messages, chatbotId) == [hello] + [hiThere];
  }

  /** A post whose model reply is empty is reported as such and leaves no
      creative record. */
  method EmptyPost(store: Store, chatbotId: int, topic: string)
    requires store.Valid() && FindChatbot(store.chatbots, chatbotId).Some?
    modifies store
  {
    var provider: Provider := (instructions, history, prompt) => Reply("");
    var before := store.creativeMessages;
    var outcome := store.GeneratePost(chatbotId, topic, Humorous, Short, provider, 2);
    assert outcome == EmptyGeneration;
    assert store.creativeMessages == before;
  }
}
