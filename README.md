# WhatsEase chat backend: store, assistant context and delivery routing

A Dafny model of the stateful core of the WhatsEase chat backend:

- **Message and user store** (`Models`, models.dfy): the `messages` and `users`
  tables as a class with a row sequence (in insertion order, `message_id`
  unique) and an email-to-`created_at` map. A store built without a database
  connection ignores writes and answers reads with empty results. The
  conversation query is a filter over the rows followed by a stable sort on the
  timestamp; the method `GetConversation` runs it as a loop over the table.
- **Assistant bridge** (`BotGroq`, bot_groq.dfy): the per-user context window
  (`user_context`, at most 10 strings, oldest dropped first), the prompt built
  from it, and the chain that turns every outcome of the completion call into a
  reply. The completion call is a function from the prompt to an abstract
  `Outcome` (success body, HTTP error with or without a readable error body,
  request failure, other failure).
- **Session registry and delivery router** (`ChatServer`, main.dfy):
  `active_connections` as a map from email to an opaque websocket `Handle`, the
  websocket event loop (`RunSession`, one atomic step per frame), and the REST
  handlers `register`, `send_message` and `update_status`. A push over a
  websocket is an append to the `outbox` sequence. The class invariant says
  that, while the database is connected, every pushed message has its id in
  the table: nothing is pushed before it is written.

Timestamps are naturals; generated message ids, `datetime.utcnow()` and the
authenticated user are parameters. Options (`Options`, options.dfy) stand for
Python's `None`-or-value.

The model keeps these behaviours of the code:

- A duplicate `message_id` is not ignored: the plain INSERT raises. A REST send
  then fails, and a websocket handler stops without removing its
  `active_connections` entry.
- `update_message_status` overwrites any status (no Sent < Delivered < Read
  check) and reports nothing for an unknown id.
- With no database connection, `register` still answers success and the
  websocket handler still pushes the message it could not store.
- The assistant reply is pushed to the requester's own websocket whether or
  not the requester's key is still in `active_connections`.

## Model

| member | source | states |
|---|---|---|
| Models.ParseStatus | backend/models.py:62-65 | `MessageStatus(t)` succeeds exactly for "Sent", "Delivered" and "Read", and the member it gives has `t` as its value |
| Models.StatusRoundTrip | backend/models.py:62-65 | `MessageStatus(s.value) == s` for every status |
| Models.MessageStore.CreateMessage | backend/models.py:81-91 | without a connection nothing changes; with one, an id already present is refused with the table unchanged, and a fresh id appends exactly that row; users untouched |
| Models.InsertedOnce | backend/models.py:86-103 | a row written under a fresh id appears exactly once in the conversation of its sender and recipient |
| Models.MessageStore.GetConversation | backend/models.py:93-116 | returns [] without a connection; otherwise exactly the rows between the two users, in non-decreasing timestamp order, equal to the conversation specification |
| Models.ConversationMembers | backend/models.py:98-103 | a row is in the conversation of (u1, u2) if and only if it is in the table with (sender, recipient) equal to (u1, u2) or (u2, u1) |
| Models.ConversationCount | backend/models.py:98-103 | the conversation keeps every copy of a matching row and no other row (multiset equality with the filtered table) |
| Models.ConversationSymmetric | backend/models.py:101-103 | the conversations of (u1, u2) and (u2, u1) are the same sequence, hence the same multiset |
| Models.InsertByTime | backend/models.py:102 | placing a row into the ordered result adds exactly that row (multiset) |
| Models.InsertSorted | backend/models.py:102 | placing a row into a timestamp-ordered result keeps it ordered |
| Models.SortByTime | backend/models.py:102 | ORDER BY timestamp returns a permutation of its input in non-decreasing timestamp order |
| Models.MessageStore.UpdateStatus | backend/models.py:118-124 | without a connection nothing changes; otherwise the table becomes the status-updated table and users are untouched |
| Models.SetStatusAt | backend/models.py:123 | the row with the id takes the new status whatever it had, with its other fields unchanged; every other row is unchanged |
| Models.SetStatusUnknownId | backend/models.py:123 | an unknown id leaves the table unchanged (no error) |
| Models.SetStatusKeepsIds | backend/models.py:123 | a status update keeps the set of ids and their uniqueness |
| Models.MessageStore.CreateUser | backend/models.py:126-133 | INSERT IGNORE: a new email gets `created_at = now`, an existing one keeps its own; afterwards the user exists when connected; nothing changes without a connection |
| Models.MessageStore.GetUser | backend/models.py:135-144 | some user exactly when connected and the email is present, carrying that email and its `created_at` |
| BotGroq.Slide | backend/bot_groq.py:12-15 | below 10 entries the new window is old + [m], otherwise old[1..] + [m]; m is last; a window of at most 10 stays at most 10 |
| BotGroq.SlideKeepsLast | backend/bot_groq.py:12-15 | one addition to the last-10 window of a history gives the last-10 window of the extended history |
| BotGroq.SlideAllKeepsLast | backend/bot_groq.py:12-15 | after any sequence of additions the window is the last (at most) 10 strings ever added, in insertion order |
| BotGroq.EleventhEvictsFirst | backend/bot_groq.py:13-15 | from empty, after 11 additions the first string is gone and the other 10 remain in order |
| BotGroq.ContextCache.AddContext | backend/bot_groq.py:11-15 | slides the given user's window and leaves every other user's entry as it was; all windows stay within 10 |
| BotGroq.ContextCache.GetContext | backend/bot_groq.py:17-18 | the stored window, or [] for an unknown user, read without mutation; at most 10 long |
| BotGroq.PromptShape | backend/bot_groq.py:25-27 | over a non-empty window, both the prompt as written (parity labels) and the corrected prompt (labels from the end) start with the oldest entry under its label, consist of the labelled lines joined by newlines, and end with "\nUser: " + message + "\nBot:" |
| BotGroq.ParityLabelsSwapWhenFull | backend/bot_groq.py:26 | as written, once more than 10 strings have passed through the window, every entry's parity label is the opposite of its author's role |
| BotGroq.ParityLabelsRightUntilFull | backend/bot_groq.py:26 | as written, while the window is not yet full, entry i is "User: " for even i and "Bot: " for odd i, which matches its author |
| BotGroq.SixthRequestMislabelled | backend/bot_groq.py:13-26 | the sixth request's window starts with the first bot reply, labelled "User: " by parity and "Bot: " by role |
| BotGroq.RoleLabelsMatchTurns | backend/bot_groq.py:26 | labelling from the end of the window gives every entry its author's role, whether the window is full or not |
| BotGroq.ReplyFor | backend/bot_groq.py:45-60 | the first choice's content if present; "Sorry, I couldn't understand that." if the success body lacks it; "Error: list index out of range" for an empty choices list; an HTTP error with an unreadable body gives "HTTP Error: " + the response text; one with an error object gives "API Error: " + its message, or + the response text when it has none; a request failure gives "Request Error: " + its text; any other failure "Error: " + its text |
| BotGroq.GenerateBotReply | backend/bot_groq.py:20-63 | the message is added to the window first; the reply is the selection applied to the call's outcome on the parity-labelled prompt (as the code builds it) of that window; the window then ends with [message, reply], stays within 10, and no other user's window changes |
| ChatServer.RecipientPush | main.py:105-109 | the recipient gets exactly one "new_message" push, to their registered handle, if and only if they are in `active_connections` at lookup time |
| ChatServer.DirectMessage | main.py:94-102 | a websocket send stores a record with sender = the connection's user, status Sent and `is_bot_response` false |
| ChatServer.BotReplyMessage | main.py:119-127 | a bot request stores a record with sender "whatease@bot.local", recipient = requester, status Sent and `is_bot_response` true |
| ChatServer.BackedAfterWrite | main.py:103-114 | writing a row and then pushing only that row keeps every push backed by a stored id |
| ChatServer.Server.Connect | main.py:85 | the user's key now holds the new handle, replacing any earlier one; other entries unchanged |
| ChatServer.Server.Disconnect | main.py:134-136 | the user's key is removed whichever handle it holds; an absent key is a no-op; other entries unchanged |
| ChatServer.Server.HandleSend | main.py:91-115 | invalid frames stop the handler with nothing changed; otherwise the record is written first, a duplicate id stops the handler with no push, and on success the recipient push (if online) and the sender echo follow, in that order |
| ChatServer.Server.HandleBot | main.py:116-133 | the reply is generated from the parity-labelled prompt as the code builds it (context updated), written as a bot-authored record, and pushed as "bot_reply" only to the requester's websocket; a duplicate id stops the handler with no push |
| ChatServer.Server.HandleEvent | main.py:88-133 | a frame of unknown type changes nothing and the loop goes on; a frame that is not a JSON object stops the handler with nothing changed; a send frame leaves the context untouched; pushes are only ever appended; a send frame without recipient or content stops the handler with nothing changed, a complete one writes the direct message and pushes it to the recipient (if online) and back to the sender, a duplicate id stopping the handler with no push; a bot frame slides the window, writes the reply to the parity-labelled prompt as a bot record and pushes it to the requester |
| ChatServer.Server.RunSession | main.py:83-136 | the connection is registered; a clean disconnect removes the key, a handler that raised leaves its entry; users are never created; the push-after-write invariant holds throughout |
| ChatServer.Server.Register | main.py:24-35 | a missing or empty email or password, or an existing user, is rejected with the users table unchanged; otherwise the user is created (when connected) and success is reported |
| ChatServer.Server.SendMessageRest | main.py:54-67 | sender is the authenticated user, status Sent, `is_bot_response` defaults to false; missing fields and duplicate ids fail with the table unchanged; nothing is pushed |
| ChatServer.Server.UpdateStatusRest | main.py:76-79 | a string that is not a status fails before the store is touched; otherwise the store's status update runs and nothing is pushed |

## Findings

| source | as written | input that shows it | evidently intended | confidence | as-written member | corrected member |
|---|---|---|---|---|---|---|
| backend/bot_groq.py:26 | entries are labelled "User"/"Bot" by index parity of the window | from an empty window, the sixth request: the window is a1, q2, a2, …, q6 after the first question is evicted, so the bot reply a1 is labelled "User: " and the new question q6 "Bot: " | each entry labelled with its author's role (user lines are the even positions of the history, so the last entry is a user line) | high; not executed | BotGroq.ParityLabelsSwapWhenFull | BotGroq.RoleLabelsMatchTurns |

`BotGroq.PromptAsWritten` is the prompt as the code builds it, and
`GenerateBotReply` and the websocket handlers use it. `BotGroq.Prompt` is the
corrected prompt, labelled from the end of the window; `RoleLabelsMatchTurns`
proves its labels right.

## Left out

- MySQL connection set-up and table creation: the store is an in-memory table; whether it is connected is fixed when it is built.
- The HTTPS request to the completion service, its payload (model name, system instruction, token cap, temperature), the API key and dotenv: the call is the `complete` parameter and its result an `Outcome`.
- JSON parsing and serialisation of frames, FastAPI routing, static files, `serve_frontend`, the health check, `login`, `get_me` and `get_messages` (a direct call of `get_conversation`).
- JWT and password hashing (`backend/auth.py`); `register` computes a hash and discards it, which has no effect on state.
- Logging and the `print` calls on a missing connection.
- Concurrency between connection handlers: each frame is one atomic step.
- The Streamlit client (`app.py`).
- `datetime` values and their `isoformat` rendering: timestamps are naturals and the result records are `Message` values.
- Models.MessageStore.GetConversation: rows with equal timestamps come back in insertion order; MySQL leaves their order unspecified.
- BotGroq.ReplyFor: a `content` that is JSON null (Python `None` as the reply), non-object `choices` elements and a non-object error body are not modelled; an unreadable or non-object error body is the `Unreadable` case.
- ChatServer.Server.HandleBot: a "bot_message" frame without `content` (Python would add `None` to the context) is not modelled; the question is always a string.
- ChatServer.Server.RunSession: once a handler raises, the model stops processing its frames; what FastAPI does with the broken socket is not modelled.
- ChatServer.Server.HandleSend: pushes never fail. In the code `send_text` (main.py:106) can raise, for instance on a stale `active_connections` entry left by a handler that raised; the sender's echo (main.py:111) is then skipped after the row is written, and a `WebSocketDisconnect` raised there removes the sender's own key (main.py:134-136).
- ChatServer.Server.HandleBot: pushes never fail. In the code `send_text` (main.py:129) can raise after the reply is written; a `WebSocketDisconnect` raised there removes the requester's key (main.py:134-136).
- Models.MessageStore: keys are compared by exact string equality. MySQL's default collations compare VARCHAR columns without regard to case, so there `get_user("A@x.com")` finds "a@x.com", `register` refuses it as existing, and the primary key refuses "ID1" once "id1" is stored; the VARCHAR(255) length limits are not modelled either.
