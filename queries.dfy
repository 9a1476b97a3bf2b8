/** The SELECT statements of ChatBuddy, as functions over the current
    contents of a table, and the facts about the tables that make their
    ORDER BY clauses agree with table order.

    Tables are kept in insertion order, which is also id order. SQLite does
    not fix the order of rows whose created_at values are equal; this model
    breaks such ties by insertion order for ASC and by reverse insertion
    order for DESC, so an ascending query returns the matching rows in table
    order and a descending one in reverse table order. The SELECT without
    ORDER BY (the chatbots of a user) is taken to return rows in rowid
    order, as a full table scan in SQLite does. The lemmas below prove that these results are indeed ordered by
    created_at whenever the table's timestamps never decrease, which the
    store keeps as an invariant. */
module Queries {
  import opened Rows

  // ---------------------------------------------------------------------
  // Table shapes

  /** No two users share a username (the UNIQUE constraint). */
  ghost predicate UniqueUsernames(users: seq<User>)
  {
    forall i, j :: 0 <= i < j < |users| ==> users[i].username != users[j].username
  }

  /** Ids are positive, strictly increasing along the table and below the
      next AUTOINCREMENT value. */
  ghost predicate UserIdsBelow(users: seq<User>, next: int)
  {
    && 0 < next
    && (forall i :: 0 <= i < |users| ==> 0 < users[i].id < next)
    && (forall i, j :: 0 <= i < j < |users| ==> users[i].id < users[j].id)
  }

  ghost predicate ChatbotIdsBelow(bots: seq<Chatbot>, next: int)
  {
    && 0 < next
    && (forall i :: 0 <= i < |bots| ==> 0 < bots[i].id < next)
    && (forall i, j :: 0 <= i < j < |bots| ==> bots[i].id < bots[j].id)
  }

  ghost predicate MessageIdsBelow(ms: seq<Message>, next: int)
  {
    && 0 < next
    && (forall i :: 0 <= i < |ms| ==> 0 < ms[i].id < next)
    && (forall i, j :: 0 <= i < j < |ms| ==> ms[i].id < ms[j].id)
  }

  ghost predicate CreativeIdsBelow(rs: seq<CreativeMessage>, next: int)
  {
    && 0 < next
    && (forall i :: 0 <= i < |rs| ==> 0 < rs[i].id < next)
    && (forall i, j :: 0 <= i < j < |rs| ==> rs[i].id < rs[j].id)
  }

  /** created_at never decreases along the table and never exceeds the clock. */
  ghost predicate ChatbotTimesUpTo(bots: seq<Chatbot>, clock: nat)
  {
    && (forall i :: 0 <= i < |bots| ==> bots[i].createdAt <= clock)
    && (forall i, j :: 0 <= i < j < |bots| ==> bots[i].createdAt <= bots[j].createdAt)
  }

  ghost predicate MessageTimesUpTo(ms: seq<Message>, clock: nat)
  {
    && (forall i :: 0 <= i < |ms| ==> ms[i].createdAt <= clock)
    && (forall i, j :: 0 <= i < j < |ms| ==> ms[i].createdAt <= ms[j].createdAt)
  }

  ghost predicate CreativeTimesUpTo(rs: seq<CreativeMessage>, clock: nat)
  {
    && (forall i :: 0 <= i < |rs| ==> rs[i].createdAt <= clock)
    && (forall i, j :: 0 <= i < j < |rs| ==> rs[i].createdAt <= rs[j].createdAt)
  }

  /** The order ORDER BY created_at ASC asks for. */
  ghost predicate Ascending(ms: seq<Message>)
  {
    forall i, j :: 0 <= i < j < |ms| ==> ms[i].createdAt <= ms[j].createdAt
  }

  /** The order ORDER BY created_at DESC asks for. */
  ghost predicate Descending(rs: seq<CreativeMessage>)
  {
    forall i, j :: 0 <= i < j < |rs| ==> rs[i].createdAt >= rs[j].createdAt
  }

  // ---------------------------------------------------------------------
  // users

  /** SELECT * FROM users WHERE username = ?, fetchone(): the first row with
      that username, if any. */
  function FindUser(users: seq<User>, username: string): (r: Option<User>)
    ensures r.Some? ==> r.value in users && r.value.username == username
    ensures r.None? ==> forall u :: u in users ==> u.username != username
  {
    if users == [] then None
    else if users[0].username == username then Some(users[0])
    else FindUser(users[1..], username)
  }

  /** log_in: the id of the user with that username when the password
      verifies against its stored digest, and None otherwise. An unknown
      username and a wrong password give the same None. */
  function LogIn(users: seq<User>, username: string, password: string,
                 verify: (string, string) -> bool): (r: Option<int>)
    ensures r.Some? ==> exists u :: u in users && u.username == username && u.id == r.value
                                    && verify(password, u.passwordHash)
    ensures UniqueUsernames(users) ==>
              (r.None? <==> forall u :: u in users && u.username == username ==> !verify(password, u.passwordHash))
  {
    var found := FindUser(users, username);
    if found.Some? && verify(password, found.value.passwordHash) then
      Some(found.value.id)
    else
      UniqueLookup(users, username, found);
      None
  }

  /** With unique usernames, a row with that username is the one FindUser returns. */
  lemma UniqueLookup(users: seq<User>, username: string, found: Option<User>)
    requires found == FindUser(users, username)
    ensures UniqueUsernames(users) ==> forall u :: u in users && u.username == username ==> found == Some(u)
  {
    if UniqueUsernames(users) {
      forall u | u in users && u.username == username
        ensures found == Some(u)
      {
        var k :| 0 <= k < |users| && users[k] == u;
        FindUserAt(users, username, k);
      }
    }
  }

  /** With unique usernames, the lookup of row k's username finds row k. */
  lemma {:induction false} FindUserAt(users: seq<User>, username: string, k: int)
    requires UniqueUsernames(users)
    requires 0 <= k < |users| && users[k].username == username
    ensures FindUser(users, username) == Some(users[k])
  {
    if k > 0 {
      assert users[0].username != username;
      FindUserAt(users[1..], username, k - 1);
    }
  }

  /** Looking up the username of a row appended after rows that do not use
      it finds that row. */
  lemma {:induction false} FindUserAppended(users: seq<User>, u: User)
    requires forall v :: v in users ==> v.username != u.username
    ensures FindUser(users + [u], u.username) == Some(u)
  {
    if users == [] {
    } else {
      assert (users + [u])[1..] == users[1..] + [u];
      FindUserAppended(users[1..], u);
    }
  }

  /** sign_up followed by log_in: once a fresh username is stored with the
      digest of a password, logging in with that password returns the new
      row's id, provided the digest verifies against the password. */
  lemma LogInAfterSignUp(users: seq<User>, u: User, password: string,
                         verify: (string, string) -> bool)
    requires forall v :: v in users ==> v.username != u.username
    requires verify(password, u.passwordHash)
    ensures LogIn(users + [u], u.username, password, verify) == Some(u.id)
  {
    FindUserAppended(users, u);
  }

  // ---------------------------------------------------------------------
  // chatbots

  /** SELECT * FROM chatbots WHERE id = ?, fetchone(). */
  function FindChatbot(bots: seq<Chatbot>, id: int): (r: Option<Chatbot>)
    ensures r.Some? ==> r.value in bots && r.value.id == id
    ensures r.None? ==> forall b :: b in bots ==> b.id != id
  {
    if bots == [] then None
    else if bots[0].id == id then Some(bots[0])
    else FindChatbot(bots[1..], id)
  }

  /** Ids are a primary key: the lookup by the id of a stored row returns
      that row. */
  lemma {:induction false} FindChatbotAt(bots: seq<Chatbot>, next: int, k: int)
    requires ChatbotIdsBelow(bots, next)
    requires 0 <= k < |bots|
    ensures FindChatbot(bots, bots[k].id) == Some(bots[k])
  {
    if k > 0 {
      assert bots[0].id < bots[k].id;
      FindChatbotAt(bots[1..], next, k - 1);
    }
  }

  /** get_user_chatbots: SELECT * FROM chatbots WHERE user_id = ?, in table
      order. The result holds exactly the rows owned by the user. */
  function UserChatbots(bots: seq<Chatbot>, userId: int): (r: seq<Chatbot>)
    ensures forall b :: b in r <==> b in bots && b.userId == userId
    ensures |r| <= |bots|
  {
    if bots == [] then []
    else (if bots[0].userId == userId then [bots[0]] else []) + UserChatbots(bots[1..], userId)
  }

  /** Appending a chatbot extends its owner's listing by that chatbot and
      leaves every other user's listing as it was. */
  lemma {:induction false} UserChatbotsAppend(bots: seq<Chatbot>, b: Chatbot, userId: int)
    ensures UserChatbots(bots + [b], userId)
            == UserChatbots(bots, userId) + (if b.userId == userId then [b] else [])
  {
    if bots == [] {
      assert UserChatbots([b], userId) == (if b.userId == userId then [b] else []) + UserChatbots([], userId);
    } else {
      var head := if bots[0].userId == userId then [bots[0]] else [];
      assert (bots + [b])[1..] == bots[1..] + [b];
      assert UserChatbots(bots + [b], userId) == head + UserChatbots(bots[1..] + [b], userId);
      UserChatbotsAppend(bots[1..], b, userId);
      assert UserChatbots(bots, userId) == head + UserChatbots(bots[1..], userId);
    }
  }

  /** A user none of whose chatbots exist yet lists exactly the chatbots then
      appended for them, in the order appended. */
  lemma UserChatbotsOfNewOwner(bots: seq<Chatbot>, b1: Chatbot, b2: Chatbot)
    requires b1.userId == b2.userId
    requires forall b :: b in bots ==> b.userId != b1.userId
    ensures UserChatbots(bots + [b1, b2], b1.userId) == [b1, b2]
  {
    var u := b1.userId;
    NoUserChatbots(bots, u);
    UserChatbotsAppend(bots, b1, u);
    UserChatbotsAppend(bots + [b1], b2, u);
    assert bots + [b1] + [b2] == bots + [b1, b2];
  }

  /** A user who owns none of the rows lists nothing. */
  lemma {:induction false} NoUserChatbots(bots: seq<Chatbot>, userId: int)
    requires forall b :: b in bots ==> b.userId != userId
    ensures UserChatbots(bots, userId) == []
  {
    if bots != [] {
      assert bots[0] in bots;
      NoUserChatbots(bots[1..], userId);
    }
  }

  // ---------------------------------------------------------------------
  // messages

  /** get_chat_history: SELECT * FROM messages WHERE chatbot_id = ?
      ORDER BY created_at ASC, with insertion order breaking ties. */
  function ChatHistory(ms: seq<Message>, chatbotId: int): (r: seq<Message>)
    ensures forall m :: m in r <==> m in ms && m.chatbotId == chatbotId
    ensures |r| <= |ms|
  {
    if ms == [] then []
    else (if ms[0].chatbotId == chatbotId then [ms[0]] else []) + ChatHistory(ms[1..], chatbotId)
  }

  /** Appending a message extends its chatbot's history by that message, at
      the end, and leaves every other chatbot's history as it was. */
  lemma {:induction false} ChatHistoryAppend(ms: seq<Message>, m: Message, chatbotId: int)
    ensures ChatHistory(ms + [m], chatbotId)
            == ChatHistory(ms, chatbotId) + (if m.chatbotId == chatbotId then [m] else [])
  {
    if ms == [] {
      assert ChatHistory([m], chatbotId) == (if m.chatbotId == chatbotId then [m] else []) + ChatHistory([], chatbotId);
    } else {
      var head := if ms[0].chatbotId == chatbotId then [ms[0]] else [];
      assert (ms + [m])[1..] == ms[1..] + [m];
      assert ChatHistory(ms + [m], chatbotId) == head + ChatHistory(ms[1..] + [m], chatbotId);
      ChatHistoryAppend(ms[1..], m, chatbotId);
      assert ChatHistory(ms, chatbotId) == head + ChatHistory(ms[1..], chatbotId);
    }
  }

  /** What a chat turn leaves in the transcripts: the user's message and the
      reply, if any, at the end of that chatbot's history, and every other
      chatbot's history as it was. */
  lemma TurnInHistory(ms: seq<Message>, asked: Message, answer: seq<Message>)
    requires |answer| <= 1
    requires forall m :: m in answer ==> m.chatbotId == asked.chatbotId
    ensures ChatHistory(ms + [asked] + answer, asked.chatbotId) == ChatHistory(ms, asked.chatbotId) + [asked] + answer
    ensures forall c :: c != asked.chatbotId ==> ChatHistory(ms + [asked] + answer, c) == ChatHistory(ms, c)
  {
    ChatHistoryAppend(ms, asked, asked.chatbotId);
    forall c | c != asked.chatbotId
      ensures ChatHistory(ms + [asked] + answer, c) == ChatHistory(ms, c)
    {
      ChatHistoryAppend(ms, asked, c);
      if answer != [] {
        assert answer == [answer[0]];
        ChatHistoryAppend(ms + [asked], answer[0], c);
      } else {
        assert ms + [asked] + answer == ms + [asked];
      }
    }
    if answer != [] {
      assert answer == [answer[0]];
      ChatHistoryAppend(ms + [asked], answer[0], asked.chatbotId);
    } else {
      assert ms + [asked] + answer == ms + [asked];
    }
  }

  /** The history is in ascending created_at order, as ORDER BY asks, when
      the table's timestamps never decrease. */
  lemma {:induction false} ChatHistoryAscending(ms: seq<Message>, clock: nat, chatbotId: int)
    requires MessageTimesUpTo(ms, clock)
    ensures Ascending(ChatHistory(ms, chatbotId))
  {
    if ms != [] {
      var tail := ms[1..];
      assert MessageTimesUpTo(tail, clock);
      ChatHistoryAscending(tail, clock, chatbotId);
      var rest := ChatHistory(tail, chatbotId);
      forall m | m in rest ensures ms[0].createdAt <= m.createdAt {
        var k :| 0 <= k < |tail| && tail[k] == m;
        assert ms[k + 1] == m;
      }
    }
  }

  // ---------------------------------------------------------------------
  // creative_messages

  /** get_creative_history: SELECT * FROM creative_messages WHERE
      chatbot_id = ? AND context = ? ORDER BY created_at DESC, with the most
      recently inserted row first among equal timestamps. Only rows of that
      chatbot and that context text appear. */
  function CreativeHistory(rs: seq<CreativeMessage>, chatbotId: int, context: string): (r: seq<CreativeMessage>)
    ensures forall x :: x in r <==> x in rs && x.chatbotId == chatbotId && ContextName(x.context) == context
    ensures |r| <= |rs|
  {
    if rs == [] then []
    else
      CreativeHistory(rs[1..], chatbotId, context)
      + (if rs[0].chatbotId == chatbotId && ContextName(rs[0].context) == context then [rs[0]] else [])
  }

  /** A newly appended matching record comes first in the history; any other
      record leaves the history as it was. */
  lemma {:induction false} CreativeHistoryAppend(rs: seq<CreativeMessage>, x: CreativeMessage,
                                                 chatbotId: int, context: string)
    ensures CreativeHistory(rs + [x], chatbotId, context)
            == (if x.chatbotId == chatbotId && ContextName(x.context) == context then [x] else [])
               + CreativeHistory(rs, chatbotId, context)
  {
    if rs == [] {
      assert CreativeHistory([x], chatbotId, context)
          == CreativeHistory([], chatbotId, context)
             + (if x.chatbotId == chatbotId && ContextName(x.context) == context then [x] else []);
    } else {
      assert (rs + [x])[0] == rs[0];
      assert (rs + [x])[1..] == rs[1..] + [x];
      CreativeHistoryAppend(rs[1..], x, chatbotId, context);
    }
  }

  /** The history is newest first, as ORDER BY ... DESC asks, when the
      table's timestamps never decrease. */
  lemma {:induction false} CreativeHistoryDescending(rs: seq<CreativeMessage>, clock: nat,
                                                     chatbotId: int, context: string)
    requires CreativeTimesUpTo(rs, clock)
    ensures Descending(CreativeHistory(rs, chatbotId, context))
  {
    if rs != [] {
      var tail := rs[1..];
      assert CreativeTimesUpTo(tail, clock);
      CreativeHistoryDescending(tail, clock, chatbotId, context);
      var rest := CreativeHistory(tail, chatbotId, context);
      forall x | x in rest ensures rs[0].createdAt <= x.createdAt {
        var k :| 0 <= k < |tail| && tail[k] == x;
        assert rs[k + 1] == x;
      }
    }
  }

  /** Posts and stories never mix: the post history of a chatbot holds no
      story and its story history holds no post. */
  lemma CreativeContextsSeparate(rs: seq<CreativeMessage>, chatbotId: int)
    ensures forall x :: x in CreativeHistory(rs, chatbotId, "post") ==> x.context == Post
    ensures forall x :: x in CreativeHistory(rs, chatbotId, "story") ==> x.context == Story
  {
  }
}
