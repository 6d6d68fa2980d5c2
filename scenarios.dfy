/**
 * Client code of the dispatcher: request sequences whose outcomes follow
 * from the handlers' contracts alone.
 */
module Scenarios {
  import opened Wrappers
  import opened PythonDb
  import opened ServerMain

  /** A request carrying only its action tag. */
  function Ask(action: string): (r: Request)
    ensures r.action == Some(action)
    ensures r.keyword.None? && r.nickname.None? && r.password.None? && r.chatId.None?
    ensures r.message.None? && r.name.None? && r.members == [] && r.users == []
  {
    Request(Some(action), None, None, None, None, None, None, [], [])
  }

  /** Leaving a chat succeeds once; a second leave is refused and changes no table. */
  method LeaveTwice(app: ServerApp, conn: Conn, chatId: ChatId) returns (first: seq<Delivery>, second: seq<Delivery>)
    requires app.Valid() && app.SessionUser(conn).Some? && chatId != ""
    requires (chatId, app.sessions[conn]) in app.store.members
    modifies app.store
    ensures app.Valid()
    ensures |first| >= 1 && first[0] == Delivery(conn, Ok)
    ensures second == [Delivery(conn, Error(NotInChat))]
    ensures (chatId, app.sessions[conn]) !in app.store.members
  {
    var req := Ask("leave_chat").(chatId := Some(chatId));
    first := app.HandleLeaveChat(conn, req);
    second := app.HandleLeaveChat(conn, req);
  }

  /** Registering one keyword twice: the first succeeds, the second is refused and leaves the users alone. */
  method RegisterTwice(app: ServerApp, conn: Conn, keyword: Keyword, nickname: string, password: string)
    returns (first: seq<Delivery>, second: seq<Delivery>)
    requires app.Valid() && keyword != "" && nickname != "" && password != ""
    requires keyword !in app.store.users
    modifies app.store
    ensures app.Valid()
    ensures first == [Delivery(conn, Ok)]
    ensures second == [Delivery(conn, Error(KeywordTaken))]
    ensures app.store.users == old(app.store.users)[keyword := User(keyword, nickname, password)]
  {
    var req := Ask("register").(keyword := Some(keyword), nickname := Some(nickname), password := Some(password));
    first := app.HandleRegister(conn, req);
    second := app.HandleRegister(conn, req);
  }

  /** alice and bob register and log in on sockets 1 and 2. */
  method BothOnline() returns (app: ServerApp)
    ensures fresh(app) && fresh(app.store) && app.Valid()
    ensures "alice" in app.store.users && "bob" in app.store.users
    ensures app.sessions == map[1 := "alice", 2 := "bob"]
  {
    var db := new Store();
    app := new ServerApp(db);
    app.Accept(1);
    app.Accept(2);
    var r := app.HandleRegister(1, Ask("register").(keyword := Some("alice"), nickname := Some("Alice"), password := Some("pw1")));
    r := app.HandleRegister(2, Ask("register").(keyword := Some("bob"), nickname := Some("Bob"), password := Some("pw2")));
    r := app.HandleLogin(1, Ask("login").(keyword := Some("alice"), password := Some("pw1")));
    r := app.HandleLogin(2, Ask("login").(keyword := Some("bob"), password := Some("pw2")));
  }

  /** alice, on socket 1, creates "Team" listing bob: both are members of a chat with no history. */
  method CreateTeam(app: ServerApp) returns (team: ChatId)
    requires app.Valid() && "alice" in app.store.users && "bob" in app.store.users
    requires app.sessions == map[1 := "alice", 2 := "bob"]
    modifies app.store
    ensures app.Valid() && team != ""
    ensures app.store.GetChatMembers(team) == {"bob", "alice"}
    ensures ChatHistory(app.store.messages, team) == []
  {
    var req := Ask("create_chat").(name := Some("Team"), members := ["bob"]);
    assert WithCaller(req.members, "alice") == ["bob", "alice"];
    assert Distinct(["bob", "alice"]);
    assert Unregistered(app.store.users, ["bob", "alice"]) == [];
    var created, raised := app.HandleCreateChat(1, req);
    team := created[0].event.chatId;
    assert Pairs(team, ["bob", "alice"]) == {(team, "bob"), (team, "alice")};
    NoHistory(app.store.messages, team);
  }

  /** alice says "hi" in a fresh "Team"; bob's socket receives it and bob reads it back. */
  method SayHi(app: ServerApp, team: ChatId) returns (sent: seq<Delivery>, history: seq<Delivery>)
    requires app.Valid() && team != "" && app.sessions == map[1 := "alice", 2 := "bob"]
    requires app.store.GetChatMembers(team) == {"bob", "alice"}
    requires ChatHistory(app.store.messages, team) == []
    modifies app.store
    ensures app.Valid() && app.store.GetChatMembers(team) == {"bob", "alice"}
    ensures 2 in Targets(sent) && AllCarry(sent, NewMessage(team, "alice", "hi"))
    ensures history == [Delivery(2, ChatMessages([("alice", "hi")]))]
  {
    assert Recipients(app.sessions, {"bob", "alice"}) == {1, 2};
    ghost var before, id := app.store.messages, app.store.nextMessageId;
    sent := app.HandleSendMessage(1, Ask("send_message").(chatId := Some(team), message := Some("hi")));
    ChatHistoryAppend(before, Message(id, team, "alice", "hi"), team);
    assert ChatHistory(app.store.messages, team) == [Message(id, team, "alice", "hi")];
    history := app.HandleGetChatMessages(2, Ask("get_chat_messages").(chatId := Some(team)));
    assert history[0].event.messages == [("alice", "hi")];
  }

  /** alice deletes "Team": both sockets are told, and bob's next read is refused. */
  method DeleteTeam(app: ServerApp, team: ChatId) returns (deleted: seq<Delivery>, afterwards: seq<Delivery>)
    requires app.Valid() && team != "" && app.sessions == map[1 := "alice", 2 := "bob"]
    requires app.store.GetChatMembers(team) == {"bob", "alice"}
    modifies app.store
    ensures |deleted| >= 1 && deleted[0] == Delivery(1, Ok)
    ensures Targets(deleted[1..]) == {1, 2} && AllCarry(deleted[1..], ChatListUpdated)
    ensures afterwards == [Delivery(2, Error(NotInChat))]
  {
    assert Recipients(app.sessions, {"bob", "alice"}) == {1, 2};
    deleted := app.HandleDeleteChat(1, Ask("delete_chat").(chatId := Some(team)));
    afterwards := app.HandleGetChatMessages(2, Ask("get_chat_messages").(chatId := Some(team)));
  }

  /**
   * alice says "hi" in "Team"; bob reads the history; alice deletes the
   * chat; bob's next read is refused.
   */
  method TeamChat() returns (team: ChatId, sent: seq<Delivery>, history: seq<Delivery>,
                             deleted: seq<Delivery>, afterwards: seq<Delivery>)
    ensures 2 in Targets(sent) && AllCarry(sent, NewMessage(team, "alice", "hi"))
    ensures history == [Delivery(2, ChatMessages([("alice", "hi")]))]
    ensures |deleted| >= 1 && deleted[0] == Delivery(1, Ok)
    ensures Targets(deleted[1..]) == {1, 2} && AllCarry(deleted[1..], ChatListUpdated)
    ensures afterwards == [Delivery(2, Error(NotInChat))]
  {
    var app := BothOnline();
    team := CreateTeam(app);
    sent, history := SayHi(app, team);
    deleted, afterwards := DeleteTeam(app, team);
  }
}
