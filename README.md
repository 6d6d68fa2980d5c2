# Chat relay server: store and dispatcher

This project models the server side of a small chat relay in Dafny. Users register under a unique keyword, log in over a socket and exchange messages in named group chats. The server keeps users, chats, memberships and messages in four sqlite tables. It answers each request on the requesting socket and fans events out to the live sockets of a chat's members.

The model has three parts:

- `python_db.dfy`, module `PythonDb`: `server_app/python_db.py`.
  - The four tables are the fields of a `Store` object: `users: map<Keyword, User>`, `chats: map<ChatId, string>` (chat names), `members: set<(ChatId, Keyword)>` and `messages: seq<Message>`.
  - An AUTOINCREMENT counter `nextMessageId` numbers the messages.
  - The writing functions are methods with `modifies this`.
  - The queries are functions that read the store.
  - `ChatHistory` and `DropChat` are reference definitions of "the messages of a chat" and "the messages left after deleting a chat". Lemmas about them carry the ordering and cascade properties.
- `server_main.dfy`, module `ServerMain`: `server_app/main.py`.
  - `ServerApp` holds the store, the `sessions` table (`map<Conn, Keyword>`) and the `clients` list (`seq<Conn>`). A connection is an abstract number.
  - Every `handle_*` handler is a method. It returns the sends it makes, in order, as a list of `Delivery(to, event)`.
  - `SendToSessions` is the loop over `sessions.items()`. `BroadcastToChat` and `NotifyUserChatListUpdate` are built on it.
  - `HandleRequest` is the dispatch `match` on the action tag.
  - `Serve` is the `handle_client` loop. `Disconnect` is its `finally` teardown.
- `scenarios.dfy`, module `Scenarios`: client code that drives the handlers. It shows the outcomes their contracts guarantee: a second leave fails, a second registration of one keyword fails, and a run with two users who create a chat, message, read and delete it.
- `wrappers.dfy`, module `Wrappers`: the `Option` type.

Behaviour of the code that the model keeps, where the code is stricter or looser than one might expect:

- `create_chat` inserts membership rows with a plain INSERT. A keyword listed twice therefore breaks the (chat_id, keyword) primary key. The transaction rolls back. `handle_client`'s own `except Exception` catches the error, which ends the `handle_client` loop, and the `finally` block tears the connection down. `Store.CreateChat` returns `None`, `HandleCreateChat` reports `raised` and `Serve` tears the connection down.
- A payload that `json.loads` rejects is not caught per request. It also ends the connection (`Frame.Malformed`).
- `handle_send_message` without a session replies "Missing fields", not "Not logged in".
- `get_or_create_default_chat` looks chats up by name. A chat named "Group Chat" that a user created counts as the default chat.
- Foreign keys are not enforced, because sqlite leaves them off by default. The store therefore accepts membership and message rows for any chat id.
- A fresh chat id is an id that no table mentions, so a chat can never inherit rows left behind from an earlier chat with the same id.

## Model

| member | source | states |
|---|---|---|
| `PythonDb.Store.constructor` | server_app/python_db.py:5-50 | the four tables start empty and the store invariant holds |
| `PythonDb.Store.AddUser` | server_app/python_db.py:52-61 | true iff the keyword was absent, and then exactly that user is added; false leaves users unchanged; no other table changes |
| `PythonDb.Store.GetUser` | server_app/python_db.py:63-69 | Some of the stored row whose keyword is the one asked for, None iff no user has it |
| `PythonDb.FreshIdExists` | server_app/python_db.py:72 | for any finite set of ids in use, there is a non-empty chat id outside it (what the store relies on uuid4 for) |
| `PythonDb.Store.CreateChat` | server_app/python_db.py:71-80 | fails iff a keyword is listed twice, and then no table changes; otherwise one new chat whose id no table mentions, members = old plus one row per listed keyword, users and messages untouched |
| `PythonDb.Store.GetUserChats` | server_app/python_db.py:82-90 | (id, name) is in the result iff the keyword has a membership row for id and id is a chat with that name (the join) |
| `PythonDb.Store.AddMessage` | server_app/python_db.py:92-97 | appends one row with the counter's id and advances the counter by one; that chat's history grows by exactly it; every other chat's history is unchanged |
| `PythonDb.ChatHistory` | server_app/python_db.py:99-105 | m is in the history of c iff m is a stored message of chat c, and the history is no longer than the table |
| `PythonDb.DropChat` | server_app/python_db.py:134 | m survives deleting chat c iff m is stored and its chat is not c |
| `PythonDb.ChatHistoryAppend` | server_app/python_db.py:92-105 | appending a message extends its own chat's history by it, in last place, and no other chat's history |
| `PythonDb.HistoryAscending` | server_app/python_db.py:102 | when the table's ids ascend, so do the ids of every chat's history (ORDER BY id is table order) |
| `PythonDb.NoHistory` | server_app/python_db.py:99-105 | a chat that no message row mentions has an empty history |
| `PythonDb.Store.GetChatMessages` | server_app/python_db.py:99-105 | (sender, content) of exactly the chat's messages, position by position, which are in ascending id order |
| `PythonDb.Store.GetChatMembers` | server_app/python_db.py:107-113 | k is in the result iff (chat, k) is a membership row |
| `PythonDb.Store.AddUsersToChat` | server_app/python_db.py:115-121 | members = old plus the listed pairs; when all pairs are present nothing changes; other chats and tables untouched |
| `PythonDb.Store.RemoveUserFromChat` | server_app/python_db.py:123-128 | removes only the pair (chat, keyword); other chats' members and all other tables unchanged |
| `PythonDb.DropChatAscending` | server_app/python_db.py:134 | deleting a chat's messages keeps ids ascending |
| `PythonDb.HistoryAfterDrop` | server_app/python_db.py:130-134 | after deleting chat c its history is empty and every other chat's history is as before |
| `PythonDb.Store.DeleteChat` | server_app/python_db.py:130-134 | removes the chat, every membership of it and every message of it; other chats' members and histories unchanged |
| `ServerMain.ServerApp.constructor` | server_app/main.py:17-24 | no sessions and no clients at start |
| `ServerMain.ServerApp.Accept` | server_app/main.py:90 | an accepted socket is appended to clients; sessions unchanged |
| `ServerMain.RemoveFirst` | server_app/main.py:140-141 | `list.remove` drops one occurrence: others stay, nothing is added, no duplicates appear, and on a duplicate-free list the socket is gone |
| `ServerMain.WithCaller` | server_app/main.py:230-231 | the caller is in the list afterwards, and the set of listed keywords grows by the caller only |
| `ServerMain.Unregistered` | server_app/main.py:233 | k is reported iff it is listed and not a user |
| `ServerMain.TargetsAppend` | server_app/main.py:242-243 | the sockets reached by two lists of sends are the union of their targets |
| `ServerMain.AppendSends` | server_app/main.py:299-300 | sends to disjoint socket sets, concatenated, reach no socket twice |
| `ServerMain.ServerApp.SendToSessions` | server_app/main.py:330-343 | exactly the sockets whose session keyword is in the set are sent the event, each once |
| `ServerMain.ServerApp.BroadcastToChat` | server_app/main.py:327-335 | the event reaches exactly the sockets whose keyword is a current member, every socket of a multi-connection member, each once, and never a non-member |
| `ServerMain.ServerApp.NotifyUserChatListUpdate` | server_app/main.py:337-343 | chat_list_updated reaches exactly the sockets logged in as the keyword, each once |
| `ServerMain.ServerApp.GetOrCreateDefaultChat` | server_app/main.py:345-351 | returns a chat with the name; reuses an existing one without changes, otherwise creates it fresh with no members |
| `ServerMain.ServerApp.HandleRegister` | server_app/main.py:154-170 | missing field: "Missing fields" and no change; taken keyword: "Keyword already taken" and no change; otherwise the user is added and becomes a member of the "Group Chat" chat, reused or else created under an id no table mentions; the message counter and the messages are untouched |
| `ServerMain.ServerApp.HandleLogin` | server_app/main.py:172-182 | binds the socket to the keyword and replies with the nickname iff the user exists and the password matches; otherwise sessions unchanged and "Invalid credentials" |
| `ServerMain.ServerApp.HandleSendMessage` | server_app/main.py:184-205 | missing session or field: "Missing fields"; non-member: "Not a member of this chat" and no message stored; member: message appended under the counter's id and the counter advanced by one, then new_message from the caller sent to exactly the members' sockets, the sender's included |
| `ServerMain.ServerApp.HandleGetChats` | server_app/main.py:207-215 | "Not logged in" without a session; otherwise exactly the caller's chats |
| `ServerMain.ServerApp.HandleCreateChat` | server_app/main.py:217-243 | no session or no name: error and no change; any unregistered member (caller appended first): "Invalid members" listing them and no chat; a member listed twice: the exception path with no change; otherwise one fresh chat with exactly those members, the id replied, and every member's sockets notified once |
| `ServerMain.ServerApp.HandleAddUsersToChat` | server_app/main.py:245-268 | missing fields, non-member or unknown user: error and no change; otherwise members = old plus the listed users, only users not already members are notified, then "ok" |
| `ServerMain.ServerApp.HandleLeaveChat` | server_app/main.py:270-283 | non-member: "You are not in this chat" and no change; member: only that pair removed, "ok", the caller's own sockets notified |
| `ServerMain.ServerApp.HandleDeleteChat` | server_app/main.py:285-300 | non-member: "You are not in this chat" and no change; member: chat, memberships and messages deleted, "ok", every socket of the members captured before deletion notified |
| `ServerMain.ServerApp.HandleGetChatMessages` | server_app/main.py:302-315 | non-member: "You are not in this chat"; member: the chat's (sender, content) rows in history order |
| `ServerMain.ServerApp.HandleRequest` | server_app/main.py:106-130 | an undecodable payload ends the loop with no change; an unknown or missing action replies "Unknown action" with no change; only login changes sessions and only this socket's entry; clients unchanged |
| `ServerMain.ServerApp.Disconnect` | server_app/main.py:139-148 | the socket leaves clients (one occurrence removed) and sessions; no other session changes |
| `ServerMain.ServerApp.Serve` | server_app/main.py:94-148 | after the loop and its teardown, sessions is the old table without this socket and clients has lost exactly this socket: no stale session; a peer that closes at once, or whose first payload is not JSON, gets no reply and leaves every table as it was |
| `Scenarios.LeaveTwice` | server_app/main.py:270-283 | a member's first leave replies "ok"; the second replies "You are not in this chat" |
| `Scenarios.RegisterTwice` | server_app/main.py:154-170 | the first registration of a keyword replies "ok"; the second replies "Keyword already taken" and users keep the first |
| `Scenarios.BothOnline` | server_app/main.py:154-182 | two registrations and logins bind sockets 1 and 2 to their keywords |
| `Scenarios.CreateTeam` | server_app/main.py:217-243 | a chat created by alice listing bob has exactly alice and bob as members and no history |
| `Scenarios.SayHi` | server_app/main.py:184-205 | alice's message reaches bob's socket and bob's read returns exactly [("alice", "hi")] |
| `Scenarios.DeleteTeam` | server_app/main.py:285-315 | deleting a chat with two online members notifies both sockets; a later read by a former member is refused |
| `Scenarios.TeamChat` | server_app/main.py:184-315 | bob's socket receives alice's new_message; the history is exactly [("alice", "hi")]; deleting notifies both sockets; a later read is refused |

## Left out

- Sockets, the accept loop and `start_server` / `stop_server` / `toggle_server` are not modelled. A connection is a number and a send is a list entry. Because `stop_server` is left out, the invariant that every session belongs to a listed client holds throughout.
- Threads and concurrency are not modelled. One request is processed at a time.
- The `recv` call, UTF-8 decoding and JSON are not modelled.
  - A request arrives as an already-decoded `Request`, or as `Malformed` when `json.loads` would fail.
  - One `recv` is taken to be one request. The source has no framing, so the partial and merged reads that can happen on a TCP stream are not represented.
- Request values of the wrong JSON type are not modelled: `members` given as null or as a string, a non-string keyword, or a non-object payload. None of these can be expressed in `Request`.
- The errno-specific log branches and every UI log call are left out. They have no effect on state or replies.
- sqlite connections, SQL text and the `timestamp` column are left out.
- `uuid.uuid4()` is left out. The store instead chooses a non-empty id that no table mentions.
- Send failures, which the source swallows with `try/except: pass`, are not modelled. Every attempted send is recorded as a delivery.
- The Qt front ends `client_app/main.py`, `client_app/ui/client_ui.py` and `server_app/ui/server_ui.py` are not part of this model. They are presentation code.
- `ServerMain.ServerApp.SendToSessions`: does not fix the order of its sends. The source sends in the dict's insertion order; the model says only which sockets receive the event, each once.
- `ServerMain.ServerApp.BroadcastToChat`: does not fix the order of its sends, for the same reason.
- `ServerMain.ServerApp.NotifyUserChatListUpdate`: does not fix the order of its sends, for the same reason.
- `ServerMain.ServerApp.HandleDeleteChat`: does not fix the order in which members are notified. The source walks a Python set.
- `ServerMain.ServerApp.HandleAddUsersToChat`: states which sockets are notified but not how often. A user listed twice is notified twice, as in the source.
- `PythonDb.Store.GetUserChats` and `ServerMain.ServerApp.HandleGetChats`: return a set. The SQL join has no ORDER BY, so the row order is unspecified.
- `ServerMain.ServerApp.GetOrCreateDefaultChat`: when several chats share the name, it picks any one of them. `fetchone` with no ORDER BY is unspecified too.
- `ServerMain.ServerApp.Serve`: states the teardown and the two cases where no request runs, an empty stream and a first payload that is not JSON. It does not compose the requests a longer stream carries; each handler's own contract gives what one request does.
- `ServerMain.ServerApp.HandleRequest`: states only the dispatch-level facts. Each handler's own contract gives the outcome of each action.
