/**
 * The persistent store of the chat server.  The four sqlite tables
 *   users(keyword PK, nickname, password)
 *   chats(id PK, name)
 *   chat_members(chat_id, keyword, PK(chat_id, keyword))
 *   messages(id PK AUTOINCREMENT, chat_id, sender, content, timestamp)
 * are the fields of one `Store` object; every function of the store
 * module is a method or a function of that class.
 */
module PythonDb {
  import opened Wrappers

  type Keyword = string
  type ChatId = string

  /** A row of `users`; `keyword` is its primary key. */
  datatype User = User(keyword: Keyword, nickname: string, password: string)

  /** A row of `messages`; `id` is assigned by the store (the timestamp column is not modelled). */
  datatype Message = Message(id: nat, chatId: ChatId, sender: Keyword, content: string)

  /** The contents of all four tables at one instant. */
  datatype Tables = Tables(
    users: map<Keyword, User>,
    chats: map<ChatId, string>,
    members: set<(ChatId, Keyword)>,
    messages: seq<Message>,
    nextMessageId: nat)

  /** The membership rows that listing the keywords `ks` in chat `c` produces. */
  function Pairs(c: ChatId, ks: seq<Keyword>): set<(ChatId, Keyword)>
  {
    set k | k in ks :: (c, k)
  }

  /** No element is listed twice. */
  predicate Distinct<T(==)>(s: seq<T>)
  {
    forall i, j :: 0 <= i < j < |s| ==> s[i] != s[j]
  }

  /** Message ids grow strictly along the table. */
  predicate IdsAscending(ms: seq<Message>)
  {
    forall i, j :: 0 <= i < j < |ms| ==> ms[i].id < ms[j].id
  }

  /** Every chat id that some row of some table mentions. */
  function IdsInUse(chats: map<ChatId, string>, members: set<(ChatId, Keyword)>, ms: seq<Message>): set<ChatId>
  {
    chats.Keys + (set p | p in members :: p.0) + (set m | m in ms :: m.chatId)
  }

  /** The messages of chat `c`, in the order the table holds them. */
  function ChatHistory(ms: seq<Message>, c: ChatId): (r: seq<Message>)
    ensures |r| <= |ms|
    ensures forall m :: m in r <==> m in ms && m.chatId == c
  {
    if ms == [] then []
    else if ms[0].chatId == c then [ms[0]] + ChatHistory(ms[1..], c)
    else ChatHistory(ms[1..], c)
  }

  /** The messages that remain when the rows of chat `c` are deleted. */
  function DropChat(ms: seq<Message>, c: ChatId): (r: seq<Message>)
    ensures |r| <= |ms|
    ensures forall m :: m in r <==> m in ms && m.chatId != c
  {
    if ms == [] then []
    else if ms[0].chatId != c then [ms[0]] + DropChat(ms[1..], c)
    else DropChat(ms[1..], c)
  }

  /** The (sender, content) columns of a list of messages. */
  function SenderAndContent(h: seq<Message>): (r: seq<(Keyword, string)>)
    ensures |r| == |h|
    ensures forall i :: 0 <= i < |h| ==> r[i].0 == h[i].sender && r[i].1 == h[i].content
  {
    seq(|h|, i requires 0 <= i < |h| => (h[i].sender, h[i].content))
  }

  /** Appending a message extends the history of its own chat by it and of no other chat. */
  lemma {:induction false} ChatHistoryAppend(ms: seq<Message>, m: Message, c: ChatId)
    ensures ChatHistory(ms + [m], c) == ChatHistory(ms, c) + (if m.chatId == c then [m] else [])
  {
    if ms == [] {
      assert ms + [m] == [m];
      assert ChatHistory([m][1..], c) == [];
    } else {
      assert (ms + [m])[0] == ms[0];
      assert (ms + [m])[1..] == ms[1..] + [m];
      ChatHistoryAppend(ms[1..], m, c);
    }
  }

  /** A chat that no message row mentions has an empty history. */
  lemma {:induction false} NoHistory(ms: seq<Message>, c: ChatId)
    requires forall m :: m in ms ==> m.chatId != c
    ensures ChatHistory(ms, c) == []
  {
    if ms != [] {
      assert ms[0] in ms;
      NoHistory(ms[1..], c);
    }
  }

  /** A chat's history keeps the ascending id order of the table. */
  lemma {:induction false} HistoryAscending(ms: seq<Message>, c: ChatId)
    requires IdsAscending(ms)
    ensures IdsAscending(ChatHistory(ms, c))
  {
    if ms != [] {
      assert IdsAscending(ms[1..]);
      HistoryAscending(ms[1..], c);
      var tail := ChatHistory(ms[1..], c);
      forall m | m in tail ensures ms[0].id < m.id {
        var j :| 0 <= j < |ms[1..]| && ms[1..][j] == m;
        assert ms[j + 1] == m;
      }
    }
  }

  /** Deleting a chat's messages keeps the ascending id order of the table. */
  lemma {:induction false} DropChatAscending(ms: seq<Message>, c: ChatId)
    requires IdsAscending(ms)
    ensures IdsAscending(DropChat(ms, c))
  {
    if ms != [] {
      assert IdsAscending(ms[1..]);
      DropChatAscending(ms[1..], c);
      var tail := DropChat(ms[1..], c);
      forall m | m in tail ensures ms[0].id < m.id {
        var j :| 0 <= j < |ms[1..]| && ms[1..][j] == m;
        assert ms[j + 1] == m;
      }
    }
  }

  /** Deleting chat `c` empties its history and leaves every other chat's history as it was. */
  lemma {:induction false} HistoryAfterDrop(ms: seq<Message>, c: ChatId, d: ChatId)
    ensures ChatHistory(DropChat(ms, c), d) == if d == c then [] else ChatHistory(ms, d)
  {
    if ms != [] {
      HistoryAfterDrop(ms[1..], c, d);
    }
  }

  /** An upper bound on the lengths of a finite set of strings. */
  ghost function MaxLength(s: set<string>): (n: nat)
    ensures forall x :: x in s ==> |x| <= n
    decreases s
  {
    if s == {} then 0
    else
      var x :| x in s;
      var rest := MaxLength(s - {x});
      if |x| > rest then |x| else rest
  }

  /** However many chat ids are in use, a non-empty unused one exists (what the store relies on uuid4 for). */
  lemma FreshIdExists(used: set<ChatId>)
    ensures exists id: ChatId :: id != "" && id !in used
  {
    var longer := seq(MaxLength(used) + 1, _ => 'u');
    assert longer !in used;
  }

  class Store {
    var users: map<Keyword, User>
    var chats: map<ChatId, string>
    var members: set<(ChatId, Keyword)>
    var messages: seq<Message>
    /** The next value of the AUTOINCREMENT counter; ids are never reused. */
    var nextMessageId: nat

    ghost predicate Valid()
      reads this
    {
      && (forall k :: k in users ==> users[k].keyword == k)
      && 0 < nextMessageId
      && IdsAscending(messages)
      && (forall i :: 0 <= i < |messages| ==> 0 < messages[i].id < nextMessageId)
    }

    /** All tables at once, for stating that an operation left every one of them as it was. */
    ghost function Snapshot(): Tables
      reads this
    {
      Tables(users, chats, members, messages, nextMessageId)
    }

    /** The tables as `init_db` creates them: empty. */
    constructor ()
      ensures Valid()
      ensures users == map[] && chats == map[] && members == {} && messages == []
    {
      users, chats, members, messages := map[], map[], {}, [];
      nextMessageId := 1;
    }

    /** `add_user`: the primary key on `keyword` rejects a second user with the same keyword. */
    method AddUser(keyword: Keyword, nickname: string, password: string) returns (ok: bool)
      requires Valid()
      modifies this
      ensures Valid()
      ensures ok <==> keyword !in old(users)
      ensures ok ==> users == old(users)[keyword := User(keyword, nickname, password)]
      ensures !ok ==> users == old(users)
      ensures ok ==> GetUser(keyword) == Some(User(keyword, nickname, password))
      ensures chats == old(chats) && members == old(members)
      ensures messages == old(messages) && nextMessageId == old(nextMessageId)
    {
      if keyword in users {
        return false;
      }
      users := users[keyword := User(keyword, nickname, password)];
      ok := true;
    }

    /** `get_user`: the stored row for `keyword`, or none. */
    function GetUser(keyword: Keyword): (r: Option<User>)
      reads this
      requires Valid()
      ensures r.Some? <==> keyword in users
      ensures r.Some? ==> r.value.keyword == keyword && r.value == users[keyword]
    {
      if keyword in users then Some(users[keyword]) else None
    }

    /**
     * `create_chat`: one new chat under an id no table mentions, and one
     * membership row per listed keyword.  The rows are plain INSERTs, so a
     * keyword listed twice violates the (chat_id, keyword) primary key; the
     * exception rolls the whole transaction back and propagates (None here).
     */
    method CreateChat(name: string, memberList: seq<Keyword>) returns (r: Option<ChatId>)
      requires Valid()
      modifies this
      ensures Valid()
      ensures r.None? <==> !Distinct(memberList)
      ensures r.Some? ==> r.value != "" && r.value !in old(IdsInUse(chats, members, messages))
      ensures r.Some? ==> chats == old(chats)[r.value := name]
      ensures r.Some? ==> members == old(members) + Pairs(r.value, memberList)
      ensures r.Some? ==> GetChatMembers(r.value) == set k | k in memberList
      ensures r.None? ==> chats == old(chats) && members == old(members)
      ensures users == old(users) && messages == old(messages) && nextMessageId == old(nextMessageId)
    {
      FreshIdExists(IdsInUse(chats, members, messages));
      var id: ChatId :| id != "" && id !in IdsInUse(chats, members, messages);
      var rows := members;
      var i := 0;
      while i < |memberList|
        invariant 0 <= i <= |memberList|
        invariant rows == members + Pairs(id, memberList[..i])
        invariant Distinct(memberList[..i])
      {
        if (id, memberList[i]) in rows {
          assert (id, memberList[i]) !in members;
          var j :| 0 <= j < i && memberList[j] == memberList[i];
          return None;
        }
        assert memberList[..i + 1] == memberList[..i] + [memberList[i]];
        rows := rows + {(id, memberList[i])};
        i := i + 1;
      }
      assert memberList[..i] == memberList;
      chats := chats[id := name];
      members := rows;
      r := Some(id);
    }

    /** `get_user_chats`: the (id, name) of every chat that has a membership row for `keyword`. */
    function GetUserChats(keyword: Keyword): (r: set<(ChatId, string)>)
      reads this
      ensures forall p :: p in r <==> (p.0, keyword) in members && p.0 in chats && chats[p.0] == p.1
    {
      set p | p in members && p.1 == keyword && p.0 in chats :: (p.0, chats[p.0])
    }

    /** `add_message`: appends one row whose id is the next value of the counter. */
    method AddMessage(chatId: ChatId, sender: Keyword, content: string)
      requires Valid()
      modifies this
      ensures Valid()
      ensures messages == old(messages) + [Message(old(nextMessageId), chatId, sender, content)]
      ensures ChatHistory(messages, chatId) == old(ChatHistory(messages, chatId)) + [Message(old(nextMessageId), chatId, sender, content)]
      ensures forall d :: d != chatId ==> ChatHistory(messages, d) == old(ChatHistory(messages, d))
      ensures users == old(users) && chats == old(chats) && members == old(members)
      ensures nextMessageId == old(nextMessageId) + 1
    {
      var m := Message(nextMessageId, chatId, sender, content);
      forall d ensures ChatHistory(messages + [m], d) == ChatHistory(messages, d) + (if m.chatId == d then [m] else []) {
        ChatHistoryAppend(messages, m, d);
      }
      messages := messages + [m];
      nextMessageId := nextMessageId + 1;
    }

    /** `get_chat_messages`: (sender, content) of exactly the messages of `chatId`, in ascending id order. */
    function GetChatMessages(chatId: ChatId): (r: seq<(Keyword, string)>)
      reads this
      requires Valid()
      ensures |r| == |ChatHistory(messages, chatId)|
      ensures forall i :: 0 <= i < |r| ==>
        r[i] == (ChatHistory(messages, chatId)[i].sender, ChatHistory(messages, chatId)[i].content)
      ensures IdsAscending(ChatHistory(messages, chatId))
    {
      HistoryAscending(messages, chatId);
      SenderAndContent(ChatHistory(messages, chatId))
    }

    /** `get_chat_members`: the keywords with a membership row for `chatId`. */
    function GetChatMembers(chatId: ChatId): (r: set<Keyword>)
      reads this
      ensures forall k :: k in r <==> (chatId, k) in members
    {
      set p | p in members && p.0 == chatId :: p.1
    }

    /** `add_users_to_chat`: INSERT OR IGNORE per keyword, so rows already present change nothing. */
    method AddUsersToChat(chatId: ChatId, ks: seq<Keyword>)
      requires Valid()
      modifies this
      ensures Valid()
      ensures members == old(members) + Pairs(chatId, ks)
      ensures Pairs(chatId, ks) <= old(members) ==> members == old(members)
      ensures GetChatMembers(chatId) == old(GetChatMembers(chatId)) + set k | k in ks
      ensures forall d :: d != chatId ==> GetChatMembers(d) == old(GetChatMembers(d))
      ensures users == old(users) && chats == old(chats)
      ensures messages == old(messages) && nextMessageId == old(nextMessageId)
    {
      var i := 0;
      while i < |ks|
        invariant 0 <= i <= |ks|
        invariant members == old(members) + Pairs(chatId, ks[..i])
        invariant users == old(users) && chats == old(chats)
        invariant messages == old(messages) && nextMessageId == old(nextMessageId)
      {
        assert ks[..i + 1] == ks[..i] + [ks[i]];
        members := members + {(chatId, ks[i])};
        i := i + 1;
      }
      assert ks[..i] == ks;
    }

    /** `remove_user_from_chat`: deletes the one row (chatId, keyword), if present. */
    method RemoveUserFromChat(chatId: ChatId, keyword: Keyword)
      requires Valid()
      modifies this
      ensures Valid()
      ensures members == old(members) - {(chatId, keyword)}
      ensures GetChatMembers(chatId) == old(GetChatMembers(chatId)) - {keyword}
      ensures forall d :: d != chatId ==> GetChatMembers(d) == old(GetChatMembers(d))
      ensures users == old(users) && chats == old(chats)
      ensures messages == old(messages) && nextMessageId == old(nextMessageId)
    {
      members := members - {(chatId, keyword)};
    }

    /** `delete_chat`: removes the chat row and, with it, its memberships and its messages. */
    method DeleteChat(chatId: ChatId)
      requires Valid()
      modifies this
      ensures Valid()
      ensures chats == old(chats) - {chatId}
      ensures members == set p | p in old(members) && p.0 != chatId
      ensures messages == DropChat(old(messages), chatId)
      ensures GetChatMembers(chatId) == {} && ChatHistory(messages, chatId) == []
      ensures forall d :: d != chatId ==> GetChatMembers(d) == old(GetChatMembers(d))
      ensures forall d :: d != chatId ==> ChatHistory(messages, d) == old(ChatHistory(messages, d))
      ensures users == old(users) && nextMessageId == old(nextMessageId)
    {
      DropChatAscending(messages, chatId);
      var kept := DropChat(messages, chatId);
      forall i | 0 <= i < |kept| ensures 0 < kept[i].id < nextMessageId {
        assert kept[i] in messages;
        var j :| 0 <= j < |messages| && messages[j] == kept[i];
      }
      forall d ensures ChatHistory(DropChat(messages, chatId), d) == if d == chatId then [] else ChatHistory(messages, d) {
        HistoryAfterDrop(messages, chatId, d);
      }
      chats := chats - {chatId};
      members := set p | p in members && p.0 != chatId;
      messages := DropChat(messages, chatId);
    }
  }
}
