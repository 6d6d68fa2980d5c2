/**
 * The request dispatcher of the chat server: the session table, the list of
 * connected clients, one method per `handle_*` handler, the two fan-out
 * helpers and the per-connection loop with its teardown.  Sending on a socket
 * is modelled as a `Delivery` in the list a handler returns, in the order the
 * handler sends.
 */
module ServerMain {
  import opened Wrappers
  import opened PythonDb

  /** A connected client socket, identified abstractly. */
  type Conn = nat

  const DefaultChatName := "Group Chat"

  const MissingFields := "Missing fields"
  const KeywordTaken := "Keyword already taken"
  const InvalidCredentials := "Invalid credentials"
  const NotAMember := "Not a member of this chat"
  const NotLoggedIn := "Not logged in"
  const MissingChatName := "Missing chat name"
  const NotInChat := "You are not in this chat"
  const UnknownAction := "Unknown action"

  /** Every JSON object the server writes to a socket. */
  datatype Event =
    | Ok                                              // {"status": "ok"}
    | LoggedIn(nickname: string)                      // {"status": "ok", "nickname": ...}
    | ChatList(chats: set<(ChatId, string)>)          // {"status": "ok", "chats": [{"id", "name"}...]}
    | ChatCreated(chatId: ChatId)                     // {"status": "ok", "chat_id": ...}
    | ChatMessages(messages: seq<(Keyword, string)>)  // {"action": "chat_messages", "messages": [{"from", "message"}...]}
    | Error(message: string)                          // {"status": "error", "message": ...}
    | InvalidMembers(names: seq<Keyword>)             // {"status": "error", "message": "Invalid members: [...]"}
    | InvalidUsers(names: seq<Keyword>)               // {"status": "error", "message": "Invalid users: [...]"}
    | NewMessage(chatId: ChatId, sender: Keyword, message: string)  // {"action": "new_message", "chat_id", "from", "message"}
    | ChatListUpdated                                 // {"action": "chat_list_updated"}

  datatype Delivery = Delivery(to: Conn, event: Event)

  /**
   * A decoded request object.  An optional field is None when the key is
   * absent; `members` and `users` are read with the default [].
   */
  datatype Request = Request(
    action: Option<string>,
    keyword: Option<string>,
    nickname: Option<string>,
    password: Option<string>,
    chatId: Option<ChatId>,
    message: Option<string>,
    name: Option<string>,
    members: seq<Keyword>,
    users: seq<Keyword>)

  /** What one `recv` yielded: an object `json.loads` accepts, or one it rejects. */
  datatype Frame = Malformed | Decoded(request: Request)

  /** Python truthiness of an optional string: present and not empty. */
  predicate Given(f: Option<string>)
  {
    f.Some? && f.value != ""
  }

  /** The action tags the dispatch `match` knows. */
  predicate KnownAction(a: Option<string>)
  {
    a.Some? && a.value in {"register", "login", "send_message", "get_chats", "create_chat",
                           "add_users_to_chat", "leave_chat", "delete_chat", "get_chat_messages"}
  }

  /** `members` with `keyword` appended when it is absent (the in-place append of create_chat). */
  function WithCaller(members: seq<Keyword>, keyword: Keyword): (r: seq<Keyword>)
    ensures keyword in r && (set m | m in r) == (set m | m in members) + {keyword}
  {
    if keyword in members then members else members + [keyword]
  }

  /** The listed keywords that no user has, in list order (`[m for m in ms if get_user(m) is None]`). */
  function Unregistered(users: map<Keyword, User>, ks: seq<Keyword>): (r: seq<Keyword>)
    ensures |r| <= |ks|
    ensures forall k :: k in r <==> k in ks && k !in users
  {
    if ks == [] then []
    else if ks[0] !in users then [ks[0]] + Unregistered(users, ks[1..])
    else Unregistered(users, ks[1..])
  }

  /** The sockets a list of sends reaches. */
  function Targets(out: seq<Delivery>): set<Conn>
  {
    set i | 0 <= i < |out| :: out[i].to
  }

  /** The sockets of two lists of sends, one after the other. */
  lemma TargetsAppend(a: seq<Delivery>, b: seq<Delivery>)
    ensures Targets(a + b) == Targets(a) + Targets(b)
  {
    forall c | c in Targets(a + b) ensures c in Targets(a) + Targets(b) {
      var i :| 0 <= i < |a + b| && (a + b)[i].to == c;
      if i < |a| {
        assert a[i].to == c;
      } else {
        assert b[i - |a|].to == c;
      }
    }
    forall c | c in Targets(a) + Targets(b) ensures c in Targets(a + b) {
      if c in Targets(a) {
        var i :| 0 <= i < |a| && a[i].to == c;
        assert (a + b)[i].to == c;
      } else {
        var i :| 0 <= i < |b| && b[i].to == c;
        assert (a + b)[|a| + i].to == c;
      }
    }
  }

  /** Two lists of sends to disjoint sets of sockets, one after the other, send to no socket twice. */
  lemma AppendSends(a: seq<Delivery>, b: seq<Delivery>)
    requires DistinctTargets(a) && DistinctTargets(b) && Targets(a) !! Targets(b)
    ensures DistinctTargets(a + b) && Targets(a + b) == Targets(a) + Targets(b)
  {
    TargetsAppend(a, b);
    forall i, j | 0 <= i < j < |a + b| ensures (a + b)[i].to != (a + b)[j].to {
      if j < |a| {
        assert (a + b)[i] == a[i] && (a + b)[j] == a[j];
      } else if i >= |a| {
        assert (a + b)[i] == b[i - |a|] && (a + b)[j] == b[j - |a|];
      } else {
        assert (a + b)[i].to == a[i].to && a[i].to in Targets(a);
        assert (a + b)[j].to == b[j - |a|].to && b[j - |a|].to in Targets(b);
      }
    }
  }

  /** Every send of `out` carries the event `e`. */
  predicate AllCarry(out: seq<Delivery>, e: Event)
  {
    forall i :: 0 <= i < |out| ==> out[i].event == e
  }

  /** No socket is sent to twice. */
  predicate DistinctTargets(out: seq<Delivery>)
  {
    forall i, j :: 0 <= i < j < |out| ==> out[i].to != out[j].to
  }

  /** The sockets whose session keyword is one of `ks`. */
  function Recipients(sessions: map<Conn, Keyword>, ks: set<Keyword>): set<Conn>
  {
    set c | c in sessions && sessions[c] in ks
  }

  /** `list.remove`: drops the first occurrence of `x`. */
  function RemoveFirst(s: seq<Conn>, x: Conn): (r: seq<Conn>)
    ensures x !in s ==> r == s
    ensures x in s ==> |r| == |s| - 1
    ensures forall y :: y in r ==> y in s
    ensures forall y :: y != x && y in s ==> y in r
    ensures Distinct(s) ==> Distinct(r) && x !in r
  {
    if s == [] then []
    else if s[0] == x then s[1..]
    else
      var rest := RemoveFirst(s[1..], x);
      assert Distinct(s) ==> Distinct(s[1..]) && s[0] !in s[1..];
      [s[0]] + rest
  }

  /** Some chat already carries `name`. */
  predicate HasChatNamed(chats: map<ChatId, string>, name: string)
  {
    exists c :: c in chats && chats[c] == name
  }

  class ServerApp {
    const store: Store
    /** The module-level `sessions` dict: socket -> keyword. */
    var sessions: map<Conn, Keyword>
    /** `self.clients`: the accepted sockets, in accept order. */
    var clients: seq<Conn>

    ghost predicate Valid()
      reads this, store
    {
      && store.Valid()
      && Distinct(clients)
      && (forall c :: c in sessions ==> c in clients)
    }

    constructor (db: Store)
      requires db.Valid()
      ensures Valid()
      ensures store == db && sessions == map[] && clients == []
    {
      store := db;
      sessions := map[];
      clients := [];
    }

    /** `sessions.get(socket)` when it is truthy: the logged-in keyword of `conn`. */
    function SessionUser(conn: Conn): (r: Option<Keyword>)
      reads this
      ensures r.Some? <==> conn in sessions && sessions[conn] != ""
      ensures r.Some? ==> r.value == sessions[conn]
    {
      if conn in sessions && sessions[conn] != "" then Some(sessions[conn]) else None
    }

    /** The accept loop's `self.clients.append(client_socket)` for a newly accepted socket. */
    method Accept(conn: Conn)
      requires Valid() && conn !in clients
      modifies this
      ensures Valid()
      ensures clients == old(clients) + [conn] && sessions == old(sessions)
    {
      clients := clients + [conn];
    }

    /** The loop over `sessions.items()`: one send to every socket whose keyword is in `ks`. */
    method SendToSessions(ks: set<Keyword>, e: Event) returns (out: seq<Delivery>)
      ensures Targets(out) == Recipients(sessions, ks)
      ensures DistinctTargets(out) && AllCarry(out, e)
    {
      out := [];
      var pending := sessions.Keys;
      while pending != {}
        invariant pending <= sessions.Keys
        invariant Targets(out) == Recipients(sessions, ks) - pending
        invariant forall i :: 0 <= i < |out| ==> out[i].to !in pending
        invariant DistinctTargets(out) && AllCarry(out, e)
        decreases pending
      {
        var c :| c in pending;
        if sessions[c] in ks {
          TargetsAppend(out, [Delivery(c, e)]);
          assert [Delivery(c, e)][0].to == c;
          assert Targets([Delivery(c, e)]) == {c};
          out := out + [Delivery(c, e)];
        }
        pending := pending - {c};
      }
    }

    /** `broadcast_to_chat`: `e` to every socket of every current member of the chat, and to no other. */
    method BroadcastToChat(chatId: ChatId, e: Event) returns (out: seq<Delivery>)
      ensures Targets(out) == Recipients(sessions, store.GetChatMembers(chatId))
      ensures forall c :: c in sessions && (chatId, sessions[c]) in store.members ==> c in Targets(out)
      ensures DistinctTargets(out) && AllCarry(out, e)
    {
      out := SendToSessions(store.GetChatMembers(chatId), e);
    }

    /** `notify_user_chat_list_update`: `chat_list_updated` to every socket logged in as `keyword`. */
    method NotifyUserChatListUpdate(keyword: Keyword) returns (out: seq<Delivery>)
      ensures Targets(out) == Recipients(sessions, {keyword})
      ensures forall i :: 0 <= i < |out| ==> out[i].to in sessions && sessions[out[i].to] == keyword
      ensures DistinctTargets(out) && AllCarry(out, ChatListUpdated)
    {
      out := SendToSessions({keyword}, ChatListUpdated);
      forall i | 0 <= i < |out| ensures out[i].to in sessions && sessions[out[i].to] == keyword {
        assert out[i].to in Targets(out);
      }
    }

    /** `get_or_create_default_chat`: a chat called `name`, reused when one exists, else created empty. */
    method GetOrCreateDefaultChat(name: string) returns (id: ChatId)
      requires Valid()
      modifies store
      ensures Valid()
      ensures id in store.chats && store.chats[id] == name
      ensures HasChatNamed(old(store.chats), name) ==> id in old(store.chats) && store.Snapshot() == old(store.Snapshot())
      ensures !HasChatNamed(old(store.chats), name) ==>
        && id != "" && id !in old(IdsInUse(store.chats, store.members, store.messages))
        && store.chats == old(store.chats)[id := name]
        && store.members == old(store.members) && store.users == old(store.users)
        && store.messages == old(store.messages) && store.nextMessageId == old(store.nextMessageId)
    {
      if c :| c in store.chats && store.chats[c] == name {
        id := c;
      } else {
        assert Distinct<Keyword>([]);
        var r := store.CreateChat(name, []);
        id := r.value;
        assert Pairs(id, []) == {};
      }
    }

    /** `handle_register`: all three fields, a keyword not yet taken, then membership of the default chat. */
    method HandleRegister(conn: Conn, req: Request) returns (out: seq<Delivery>)
      requires Valid()
      modifies store
      ensures Valid()
      ensures !(Given(req.keyword) && Given(req.nickname) && Given(req.password)) ==>
        out == [Delivery(conn, Error(MissingFields))] && store.Snapshot() == old(store.Snapshot())
      ensures Given(req.keyword) && Given(req.nickname) && Given(req.password) ==>
        var k := req.keyword.value;
        if k in old(store.users) then
          out == [Delivery(conn, Error(KeywordTaken))] && store.Snapshot() == old(store.Snapshot())
        else
          && out == [Delivery(conn, Ok)]
          && store.users == old(store.users)[k := User(k, req.nickname.value, req.password.value)]
          && store.messages == old(store.messages) && store.nextMessageId == old(store.nextMessageId)
          && (exists g :: g in store.chats && store.chats[g] == DefaultChatName
                && store.members == old(store.members) + {(g, k)}
                && (if HasChatNamed(old(store.chats), DefaultChatName)
                    then g in old(store.chats) && store.chats == old(store.chats)
                    else && g != "" && g !in old(IdsInUse(store.chats, store.members, store.messages))
                         && store.chats == old(store.chats)[g := DefaultChatName]))
    {
      if !(Given(req.keyword) && Given(req.nickname) && Given(req.password)) {
        return [Delivery(conn, Error(MissingFields))];
      }
      var k := req.keyword.value;
      var ok := store.AddUser(k, req.nickname.value, req.password.value);
      if ok {
        var g := GetOrCreateDefaultChat(DefaultChatName);
        assert Pairs(g, [k]) == {(g, k)};
        store.AddUsersToChat(g, [k]);
        out := [Delivery(conn, Ok)];
      } else {
        out := [Delivery(conn, Error(KeywordTaken))];
      }
    }

    /** The stored password of the requested keyword equals the given one. */
    ghost predicate Authenticates(req: Request)
      reads this, store
    {
      req.keyword.Some? && req.keyword.value in store.users
      && req.password == Some(store.users[req.keyword.value].password)
    }

    /** `handle_login`: binds the socket to the keyword only on matching credentials. */
    method HandleLogin(conn: Conn, req: Request) returns (out: seq<Delivery>)
      requires Valid() && conn in clients
      modifies this
      ensures Valid() && clients == old(clients)
      ensures Authenticates(req) ==>
        && sessions == old(sessions)[conn := req.keyword.value]
        && out == [Delivery(conn, LoggedIn(store.users[req.keyword.value].nickname))]
      ensures !Authenticates(req) ==>
        sessions == old(sessions) && out == [Delivery(conn, Error(InvalidCredentials))]
    {
      // get_user(None) matches no row
      var user := if req.keyword.Some? then store.GetUser(req.keyword.value) else None;
      if user.Some? && req.password == Some(user.value.password) {
        sessions := sessions[conn := req.keyword.value];
        out := [Delivery(conn, LoggedIn(user.value.nickname))];
      } else {
        out := [Delivery(conn, Error(InvalidCredentials))];
      }
    }

    /** `handle_send_message`: a member's message is stored, then broadcast to the chat. */
    method HandleSendMessage(conn: Conn, req: Request) returns (out: seq<Delivery>)
      requires Valid()
      modifies store
      ensures Valid()
      ensures !(SessionUser(conn).Some? && Given(req.chatId) && Given(req.message)) ==>
        out == [Delivery(conn, Error(MissingFields))] && store.Snapshot() == old(store.Snapshot())
      ensures SessionUser(conn).Some? && Given(req.chatId) && Given(req.message) ==>
        var kw, c, text := sessions[conn], req.chatId.value, req.message.value;
        if kw !in old(store.GetChatMembers(c)) then
          out == [Delivery(conn, Error(NotAMember))] && store.Snapshot() == old(store.Snapshot())
        else
          && store.messages == old(store.messages) + [Message(old(store.nextMessageId), c, kw, text)]
          && store.nextMessageId == old(store.nextMessageId) + 1
          && store.users == old(store.users) && store.chats == old(store.chats)
          && store.members == old(store.members)
          && Targets(out) == Recipients(sessions, store.GetChatMembers(c))
          && conn in Targets(out)
          && DistinctTargets(out) && AllCarry(out, NewMessage(c, kw, text))
    {
      var keyword := SessionUser(conn);
      if !(keyword.Some? && Given(req.chatId) && Given(req.message)) {
        return [Delivery(conn, Error(MissingFields))];
      }
      var kw, c, text := keyword.value, req.chatId.value, req.message.value;
      var members := store.GetChatMembers(c);
      if kw !in members {
        return [Delivery(conn, Error(NotAMember))];
      }
      store.AddMessage(c, kw, text);
      out := BroadcastToChat(c, NewMessage(c, kw, text));
    }

    /** `handle_get_chats`: the caller's chats, or "Not logged in". */
    method HandleGetChats(conn: Conn) returns (out: seq<Delivery>)
      ensures SessionUser(conn).None? ==> out == [Delivery(conn, Error(NotLoggedIn))]
      ensures SessionUser(conn).Some? ==>
        |out| == 1 && out[0].to == conn && out[0].event.ChatList?
        && forall p :: p in out[0].event.chats <==>
             p.0 in store.chats && store.chats[p.0] == p.1 && (p.0, sessions[conn]) in store.members
    {
      var keyword := SessionUser(conn);
      if keyword.None? {
        return [Delivery(conn, Error(NotLoggedIn))];
      }
      out := [Delivery(conn, ChatList(store.GetUserChats(keyword.value)))];
    }

    /**
     * `handle_create_chat`: the caller is appended to the members when
     * absent, every member must be a user, then the chat is created and every
     * member notified.  `raised` is true when `create_chat` raised (a member
     * listed twice), which ends the connection.
     */
    method HandleCreateChat(conn: Conn, req: Request) returns (out: seq<Delivery>, raised: bool)
      requires Valid()
      modifies store
      ensures Valid()
      ensures SessionUser(conn).None? ==>
        out == [Delivery(conn, Error(NotLoggedIn))] && !raised && store.Snapshot() == old(store.Snapshot())
      ensures SessionUser(conn).Some? && !Given(req.name) ==>
        out == [Delivery(conn, Error(MissingChatName))] && !raised && store.Snapshot() == old(store.Snapshot())
      ensures SessionUser(conn).Some? && Given(req.name) ==>
        var ms := WithCaller(req.members, sessions[conn]);
        if Unregistered(old(store.users), ms) != [] then
          out == [Delivery(conn, InvalidMembers(Unregistered(old(store.users), ms)))]
          && !raised && store.Snapshot() == old(store.Snapshot())
        else if !Distinct(ms) then
          out == [] && raised && store.Snapshot() == old(store.Snapshot())
        else
          && !raised && |out| >= 1 && out[0].to == conn && out[0].event.ChatCreated?
          && var id := out[0].event.chatId;
          && id != "" && id !in old(IdsInUse(store.chats, store.members, store.messages))
          && store.chats == old(store.chats)[id := req.name.value]
          && store.members == old(store.members) + Pairs(id, ms)
          && store.users == old(store.users) && store.messages == old(store.messages)
          && store.nextMessageId == old(store.nextMessageId)
          && Targets(out[1..]) == Recipients(sessions, set m | m in ms)
          && DistinctTargets(out[1..]) && AllCarry(out[1..], ChatListUpdated)
    {
      raised := false;
      var keyword := SessionUser(conn);
      if keyword.None? {
        return [Delivery(conn, Error(NotLoggedIn))], false;
      }
      if !Given(req.name) {
        return [Delivery(conn, Error(MissingChatName))], false;
      }
      var kw := keyword.value;
      var ms := WithCaller(req.members, kw);
      var invalid := Unregistered(store.users, ms);
      if invalid != [] {
        return [Delivery(conn, InvalidMembers(invalid))], false;
      }
      var created := store.CreateChat(req.name.value, ms);
      if created.None? {
        return [], true;
      }
      var id := created.value;
      var notes: seq<Delivery> := [];
      for i := 0 to |ms|
        modifies {}
        invariant Targets(notes) == Recipients(sessions, set m | m in ms[..i])
        invariant DistinctTargets(notes) && AllCarry(notes, ChatListUpdated)
      {
        var n := NotifyUserChatListUpdate(ms[i]);
        assert ms[..i + 1] == ms[..i] + [ms[i]];
        assert ms[i] !in ms[..i];
        AppendSends(notes, n);
        notes := notes + n;
      }
      assert ms[..|ms|] == ms;
      out := [Delivery(conn, ChatCreated(id))] + notes;
      assert out[1..] == notes;
    }

    /** `handle_add_users_to_chat`: a member adds users; only users not already in the chat are notified. */
    method HandleAddUsersToChat(conn: Conn, req: Request) returns (out: seq<Delivery>)
      requires Valid()
      modifies store
      ensures Valid()
      ensures !(SessionUser(conn).Some? && Given(req.chatId)) ==>
        out == [Delivery(conn, Error(MissingFields))] && store.Snapshot() == old(store.Snapshot())
      ensures SessionUser(conn).Some? && Given(req.chatId) ==>
        var kw, c := sessions[conn], req.chatId.value;
        var current := old(store.GetChatMembers(c));
        if kw !in current then
          out == [Delivery(conn, Error(NotInChat))] && store.Snapshot() == old(store.Snapshot())
        else if Unregistered(old(store.users), req.users) != [] then
          out == [Delivery(conn, InvalidUsers(Unregistered(old(store.users), req.users)))] && store.Snapshot() == old(store.Snapshot())
        else
          && store.members == old(store.members) + Pairs(c, req.users)
          && store.users == old(store.users) && store.chats == old(store.chats)
          && store.messages == old(store.messages) && store.nextMessageId == old(store.nextMessageId)
          && |out| >= 1 && out[|out| - 1] == Delivery(conn, Ok)
          && Targets(out[..|out| - 1]) == Recipients(sessions, (set u | u in req.users) - current)
          && AllCarry(out[..|out| - 1], ChatListUpdated)
    {
      var keyword := SessionUser(conn);
      if !(keyword.Some? && Given(req.chatId)) {
        return [Delivery(conn, Error(MissingFields))];
      }
      var kw, c := keyword.value, req.chatId.value;
      var current := store.GetChatMembers(c);
      if kw !in current {
        return [Delivery(conn, Error(NotInChat))];
      }
      var invalid := Unregistered(store.users, req.users);
      if invalid != [] {
        return [Delivery(conn, InvalidUsers(invalid))];
      }
      var notes: seq<Delivery> := [];
      for i := 0 to |req.users|
        invariant store.Valid()
        invariant store.members == old(store.members) + Pairs(c, req.users[..i])
        invariant store.users == old(store.users) && store.chats == old(store.chats)
        invariant store.messages == old(store.messages) && store.nextMessageId == old(store.nextMessageId)
        invariant Targets(notes) == Recipients(sessions, (set u | u in req.users[..i]) - current)
        invariant AllCarry(notes, ChatListUpdated)
      {
        var u := req.users[i];
        assert req.users[..i + 1] == req.users[..i] + [u];
        if u !in current {
          store.AddUsersToChat(c, [u]);
          assert Pairs(c, [u]) == {(c, u)};
          var n := NotifyUserChatListUpdate(u);
          TargetsAppend(notes, n);
          notes := notes + n;
        } else {
          assert (c, u) in old(store.members);
        }
      }
      assert req.users[..|req.users|] == req.users;
      out := notes + [Delivery(conn, Ok)];
      assert out[..|out| - 1] == notes;
    }

    /** `handle_leave_chat`: a member's own row is removed and the caller's sockets notified. */
    method HandleLeaveChat(conn: Conn, req: Request) returns (out: seq<Delivery>)
      requires Valid()
      modifies store
      ensures Valid()
      ensures !(SessionUser(conn).Some? && Given(req.chatId)) ==>
        out == [Delivery(conn, Error(MissingFields))] && store.Snapshot() == old(store.Snapshot())
      ensures SessionUser(conn).Some? && Given(req.chatId) ==>
        var kw, c := sessions[conn], req.chatId.value;
        if kw !in old(store.GetChatMembers(c)) then
          out == [Delivery(conn, Error(NotInChat))] && store.Snapshot() == old(store.Snapshot())
        else
          && store.members == old(store.members) - {(c, kw)}
          && kw !in store.GetChatMembers(c)
          && store.users == old(store.users) && store.chats == old(store.chats)
          && store.messages == old(store.messages) && store.nextMessageId == old(store.nextMessageId)
          && |out| >= 1 && out[0] == Delivery(conn, Ok)
          && Targets(out[1..]) == Recipients(sessions, {kw}) && conn in Targets(out[1..])
          && DistinctTargets(out[1..]) && AllCarry(out[1..], ChatListUpdated)
    {
      var keyword := SessionUser(conn);
      if !(keyword.Some? && Given(req.chatId)) {
        return [Delivery(conn, Error(MissingFields))];
      }
      var kw, c := keyword.value, req.chatId.value;
      var members := store.GetChatMembers(c);
      if kw !in members {
        return [Delivery(conn, Error(NotInChat))];
      }
      store.RemoveUserFromChat(c, kw);
      var n := NotifyUserChatListUpdate(kw);
      out := [Delivery(conn, Ok)] + n;
      assert out[1..] == n;
    }

    /** `handle_delete_chat`: a member deletes the chat; everyone who was a member is notified. */
    method HandleDeleteChat(conn: Conn, req: Request) returns (out: seq<Delivery>)
      requires Valid()
      modifies store
      ensures Valid()
      ensures !(SessionUser(conn).Some? && Given(req.chatId)) ==>
        out == [Delivery(conn, Error(MissingFields))] && store.Snapshot() == old(store.Snapshot())
      ensures SessionUser(conn).Some? && Given(req.chatId) ==>
        var kw, c := sessions[conn], req.chatId.value;
        var former := old(store.GetChatMembers(c));
        if kw !in former then
          out == [Delivery(conn, Error(NotInChat))] && store.Snapshot() == old(store.Snapshot())
        else
          && store.chats == old(store.chats) - {c}
          && store.members == (set p | p in old(store.members) && p.0 != c)
          && store.messages == DropChat(old(store.messages), c)
          && store.users == old(store.users) && store.nextMessageId == old(store.nextMessageId)
          && |out| >= 1 && out[0] == Delivery(conn, Ok)
          && Targets(out[1..]) == Recipients(sessions, former)
          && DistinctTargets(out[1..]) && AllCarry(out[1..], ChatListUpdated)
    {
      var keyword := SessionUser(conn);
      if !(keyword.Some? && Given(req.chatId)) {
        return [Delivery(conn, Error(MissingFields))];
      }
      var kw, c := keyword.value, req.chatId.value;
      var members := store.GetChatMembers(c);
      if kw !in members {
        return [Delivery(conn, Error(NotInChat))];
      }
      store.DeleteChat(c);
      var notes: seq<Delivery> := [];
      var pending := members;
      while pending != {}
        modifies {}
        invariant pending <= members
        invariant Targets(notes) == Recipients(sessions, members - pending)
        invariant DistinctTargets(notes) && AllCarry(notes, ChatListUpdated)
        decreases pending
      {
        var m :| m in pending;
        var n := NotifyUserChatListUpdate(m);
        AppendSends(notes, n);
        notes := notes + n;
        pending := pending - {m};
      }
      out := [Delivery(conn, Ok)] + notes;
      assert out[1..] == notes;
    }

    /** `handle_get_chat_messages`: a member reads the chat's history. */
    method HandleGetChatMessages(conn: Conn, req: Request) returns (out: seq<Delivery>)
      requires Valid()
      ensures !(SessionUser(conn).Some? && Given(req.chatId)) ==>
        out == [Delivery(conn, Error(MissingFields))]
      ensures SessionUser(conn).Some? && Given(req.chatId) ==>
        var kw, c := sessions[conn], req.chatId.value;
        if (c, kw) !in store.members then
          out == [Delivery(conn, Error(NotInChat))]
        else
          && |out| == 1 && out[0].to == conn && out[0].event.ChatMessages?
          && var h := ChatHistory(store.messages, c);
          && |out[0].event.messages| == |h|
          && forall i :: 0 <= i < |h| ==> out[0].event.messages[i] == (h[i].sender, h[i].content)
    {
      var keyword := SessionUser(conn);
      if !(keyword.Some? && Given(req.chatId)) {
        return [Delivery(conn, Error(MissingFields))];
      }
      var kw, c := keyword.value, req.chatId.value;
      var members := store.GetChatMembers(c);
      if kw !in members {
        return [Delivery(conn, Error(NotInChat))];
      }
      out := [Delivery(conn, ChatMessages(store.GetChatMessages(c)))];
    }

    /**
     * One pass of the `handle_client` loop body: the dispatch `match` on the
     * action tag.  `stop` is true when an exception escapes the handler (an
     * undecodable payload, or `create_chat` raising), which ends the loop.
     */
    method HandleRequest(conn: Conn, frame: Frame) returns (out: seq<Delivery>, stop: bool)
      requires Valid() && conn in clients
      modifies this, store
      ensures Valid() && clients == old(clients)
      ensures sessions - {conn} == old(sessions) - {conn}
      ensures stop ==> frame.Malformed? || frame.request.action == Some("create_chat")
      ensures frame.Malformed? ==> stop && out == [] && unchanged(this) && store.Snapshot() == old(store.Snapshot())
      ensures frame.Decoded? && !KnownAction(frame.request.action) ==>
        !stop && out == [Delivery(conn, Error(UnknownAction))] && unchanged(this) && store.Snapshot() == old(store.Snapshot())
      ensures sessions != old(sessions) ==> frame.Decoded? && frame.request.action == Some("login")
    {
      stop := false;
      if frame.Malformed? {
        return [], true;
      }
      var req := frame.request;
      if req.action.None? {
        return [Delivery(conn, Error(UnknownAction))], false;
      }
      match req.action.value
      case "register" =>
        out := HandleRegister(conn, req);
      case "login" =>
        out := HandleLogin(conn, req);
      case "send_message" =>
        out := HandleSendMessage(conn, req);
      case "get_chats" =>
        out := HandleGetChats(conn);
      case "create_chat" =>
        out, stop := HandleCreateChat(conn, req);
      case "add_users_to_chat" =>
        out := HandleAddUsersToChat(conn, req);
      case "leave_chat" =>
        out := HandleLeaveChat(conn, req);
      case "delete_chat" =>
        out := HandleDeleteChat(conn, req);
      case "get_chat_messages" =>
        out := HandleGetChatMessages(conn, req);
      case _ =>
        out := [Delivery(conn, Error(UnknownAction))];
    }

    /** The `finally` of `handle_client`: the socket leaves `clients` and `sessions`. */
    method Disconnect(conn: Conn)
      requires Valid()
      modifies this
      ensures Valid()
      ensures clients == RemoveFirst(old(clients), conn) && conn !in clients
      ensures sessions == old(sessions) - {conn} && conn !in sessions
    {
      if conn in clients {
        clients := RemoveFirst(clients, conn);
      }
      if conn in sessions {
        sessions := sessions - {conn};
      }
    }

    /**
     * `handle_client`: requests are dispatched in order until the peer
     * closes (the frames run out) or an exception ends the loop; the
     * teardown then runs unconditionally.
     */
    method Serve(conn: Conn, frames: seq<Frame>) returns (out: seq<Delivery>)
      requires Valid() && conn in clients
      modifies this, store
      ensures Valid()
      ensures clients == RemoveFirst(old(clients), conn) && conn !in clients
      ensures sessions == old(sessions) - {conn} && conn !in sessions
      ensures frames == [] || frames[0].Malformed? ==> out == [] && store.Snapshot() == old(store.Snapshot())
    {
      out := [];
      var i := 0;
      var stop := false;
      while i < |frames| && !stop
        invariant 0 <= i <= |frames|
        invariant Valid() && conn in clients && clients == old(clients)
        invariant sessions - {conn} == old(sessions) - {conn}
        invariant i == 0 || (frames[0].Malformed? && i == 1 && stop) ==> out == [] && store.Snapshot() == old(store.Snapshot())
        invariant frames != [] && frames[0].Malformed? ==> i == 0 || (i == 1 && stop)
      {
        var sent;
        sent, stop := HandleRequest(conn, frames[i]);
        out := out + sent;
        i := i + 1;
      }
      Disconnect(conn);
    }
  }
}
