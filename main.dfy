/**
  The delivery router and session registry of main.py: `active_connections`,
  the websocket event loop, and the REST handlers that touch the store. Each
  event is one atomic step; a push over a websocket is an append to `outbox`,
  and the authenticated user of a REST call is a parameter.
 */
module ChatServer {
  import opened Options
  import opened Models
  import opened BotGroq

  /** The sender of every assistant reply. */
  const BotSender: string := "whatease@bot.local"

  /** An open websocket. */
  datatype Handle = Handle(id: nat)

  /** The `type` field of a pushed frame: "new_message" or "bot_reply". */
  datatype PushKind = NewMessage | BotReply

  /** One `send_text` of a message record over a websocket. */
  datatype Push = Push(to: Handle, kind: PushKind, message: Message)

  /**
    One frame received on a websocket. `id` and `now` stand for the generated
    message id and `datetime.utcnow()`; `complete` for the completion call.
   */
  datatype Event =
    | SendMessage(recipient: Option<string>, content: Option<string>, id: string, now: nat)
    | BotMessage(question: string, id: string, now: nat, complete: string -> Outcome)
    | Unrecognised   // a JSON object whose "type" is neither: ignored
    | Malformed      // a frame that is not a JSON object: the handler raises

  /** The body of `POST /messages`; None stands for a missing key. */
  datatype SendRequest = SendRequest(
    messageId: Option<string>,
    recipient: Option<string>,
    content: Option<string>,
    isBotResponse: Option<bool>)

  /** Why a REST handler raised instead of answering. */
  datatype Fault = MissingField | DuplicateId | BadStatus

  datatype Response =
    | Success(message: string)      // the handler's JSON answer
    | Rejected(detail: string)      // an HTTPException with status 400
    | Failed(fault: Fault)          // an exception the handler does not catch

  /** Python's truthiness of an optional string: present and non-empty. */
  predicate Truthy(s: Option<string>)
  {
    s.Some? && s.value != ""
  }

  /** Every pushed message has its id in the table: nothing is pushed before it is written. */
  ghost predicate Backed(outbox: seq<Push>, rows: seq<Message>)
  {
    forall k :: 0 <= k < |outbox| ==> HasId(rows, outbox[k].message.id)
  }

  /** Writing a row and then pushing only that row keeps every push backed by the table. */
  lemma BackedAfterWrite(outbox: seq<Push>, rows: seq<Message>, m: Message, pushes: seq<Push>)
    requires Backed(outbox, rows)
    requires forall k :: 0 <= k < |pushes| ==> pushes[k].message.id == m.id
    ensures Backed(outbox + pushes, rows + [m])
  {
    assert (rows + [m])[|rows|] == m;
    forall k | 0 <= k < |outbox| ensures HasId(rows + [m], outbox[k].message.id) {
      var i :| 0 <= i < |rows| && rows[i].id == outbox[k].message.id;
      assert (rows + [m])[i] == rows[i];
    }
  }

  /** The record a websocket "send_message" frame builds. */
  function DirectMessage(user: string, recipient: string, content: string, id: string, now: nat): (m: Message)
    ensures m.sender == user && m.recipient == recipient && m.content == content
    ensures m.status == Sent && !m.isBotResponse
  {
    Message(id, user, recipient, content, now, Sent, false)
  }

  /** The record a websocket "bot_message" frame builds around the reply. */
  function BotReplyMessage(user: string, reply: string, id: string, now: nat): (m: Message)
    ensures m.sender == BotSender && m.recipient == user && m.content == reply
    ensures m.status == Sent && m.isBotResponse
  {
    Message(id, BotSender, user, reply, now, Sent, true)
  }

  /** The push to the recipient: one if they hold a connection at lookup time, none otherwise. */
  function RecipientPush(sessions: map<string, Handle>, recipient: string, m: Message): (r: seq<Push>)
    ensures |r| <= 1
    ensures |r| == 1 <==> recipient in sessions
    ensures |r| == 1 ==> r[0] == Push(sessions[recipient], NewMessage, m)
  {
    if recipient in sessions then [Push(sessions[recipient], NewMessage, m)] else []
  }

  class Server {
    const store: MessageStore
    const cache: ContextCache
    /** `active_connections`: email to that user's latest websocket. */
    var sessions: map<string, Handle>
    /** Every frame pushed so far, in order. */
    var outbox: seq<Push>

    ghost predicate Valid()
      reads this, store, cache
    {
      store.Valid() && cache.Valid() && (store.online ==> Backed(outbox, store.rows))
    }

    constructor (online: bool)
      ensures Valid() && fresh(store) && fresh(cache)
      ensures store.online == online && store.rows == [] && store.users == map[]
      ensures cache.windows == map[]
      ensures sessions == map[] && outbox == []
    {
      store := new MessageStore(online);
      cache := new ContextCache();
      sessions := map[];
      outbox := [];
    }

    /** A websocket for `user` is accepted: last connection wins. */
    method Connect(user: string, h: Handle)
      modifies this`sessions
      ensures sessions == old(sessions)[user := h]
      ensures forall u :: u != user ==> (u in sessions <==> u in old(sessions))
      ensures forall u :: u != user && u in sessions ==> sessions[u] == old(sessions)[u]
    {
      sessions := sessions[user := h];
    }

    /** The websocket of `user` disconnected: the key goes, whichever handle it holds. */
    method Disconnect(user: string)
      modifies this`sessions
      ensures sessions == old(sessions) - {user}
      ensures user !in sessions
      ensures forall u :: u != user ==> (u in sessions <==> u in old(sessions))
      ensures forall u :: u != user && u in sessions ==> sessions[u] == old(sessions)[u]
    {
      if user in sessions {
        sessions := sessions - {user};
      }
    }

    /** A "send_message" frame from `user` on websocket `self`: store, then push. */
    method HandleSend(user: string, self: Handle, recipient: Option<string>, content: Option<string>, id: string, now: nat)
      returns (alive: bool)
      requires Valid()
      modifies this`outbox, store
      ensures Valid()
      ensures store.users == old(store.users)
      ensures recipient.None? || content.None? ==>
                !alive && store.rows == old(store.rows) && outbox == old(outbox)
      ensures recipient.Some? && content.Some? ==>
                var m := DirectMessage(user, recipient.value, content.value, id, now);
                alive == !(store.online && HasId(old(store.rows), id)) &&
                store.rows == (if store.online && alive then old(store.rows) + [m] else old(store.rows)) &&
                outbox == old(outbox) + (if alive then RecipientPush(sessions, recipient.value, m) + [Push(self, NewMessage, m)] else [])
    {
      if recipient.None? || content.None? {
        return false;
      }
      var m := DirectMessage(user, recipient.value, content.value, id, now);
      ghost var rowsBefore := store.rows;
      var written := store.CreateMessage(m);
      if written == DuplicateKey {
        return false;
      }
      ghost var pushedBefore := outbox;
      if recipient.value in sessions {
        outbox := outbox + [Push(sessions[recipient.value], NewMessage, m)];
      }
      outbox := outbox + [Push(self, NewMessage, m)];
      alive := true;
      if store.online {
        BackedAfterWrite(pushedBefore, rowsBefore, m, outbox[|pushedBefore|..]);
        assert pushedBefore + outbox[|pushedBefore|..] == outbox;
      }
    }

    /** A "bot_message" frame from `user` on websocket `self`: ask, store the reply, push it back. */
    method HandleBot(user: string, self: Handle, content: string, id: string, now: nat, complete: string -> Outcome)
      returns (alive: bool)
      requires Valid()
      modifies this`outbox, store, cache
      ensures Valid()
      ensures store.users == old(store.users)
      ensures var sent := Slide(old(cache.GetContext(user)), content);
              var reply := ReplyFor(complete(PromptAsWritten(sent, content)));
              var m := BotReplyMessage(user, reply, id, now);
              cache.windows == old(cache.windows)[user := Slide(sent, reply)] &&
              alive == !(store.online && HasId(old(store.rows), id)) &&
              store.rows == (if store.online && alive then old(store.rows) + [m] else old(store.rows)) &&
              outbox == old(outbox) + (if alive then [Push(self, BotReply, m)] else [])
    {
      ghost var sent := Slide(cache.GetContext(user), content);
      var reply := GenerateBotReply(cache, user, content, complete);
      assert reply == ReplyFor(complete(PromptAsWritten(sent, content)));
      var m := BotReplyMessage(user, reply, id, now);
      ghost var rowsBefore := store.rows;
      var written := store.CreateMessage(m);
      if written == DuplicateKey {
        return false;
      }
      if store.online {
        BackedAfterWrite(outbox, rowsBefore, m, [Push(self, BotReply, m)]);
      }
      outbox := outbox + [Push(self, BotReply, m)];
      alive := true;
    }

    /** One turn of the `while True` loop; `alive` is false when the handler raised. */
    method HandleEvent(user: string, self: Handle, ev: Event) returns (alive: bool)
      requires Valid()
      modifies this`outbox, store, cache
      ensures Valid()
      ensures store.users == old(store.users)
      ensures old(outbox) <= outbox
      ensures ev.Unrecognised? ==> alive && outbox == old(outbox) && store.rows == old(store.rows) && cache.windows == old(cache.windows)
      ensures ev.Malformed? ==> !alive && outbox == old(outbox) && store.rows == old(store.rows) && cache.windows == old(cache.windows)
      ensures ev.SendMessage? ==> cache.windows == old(cache.windows)
      ensures ev.SendMessage? && (ev.recipient.None? || ev.content.None?) ==>
                !alive && store.rows == old(store.rows) && outbox == old(outbox)
      ensures ev.SendMessage? && ev.recipient.Some? && ev.content.Some? ==>
                var m := DirectMessage(user, ev.recipient.value, ev.content.value, ev.id, ev.now);
                alive == !(store.online && HasId(old(store.rows), ev.id)) &&
                store.rows == (if store.online && alive then old(store.rows) + [m] else old(store.rows)) &&
                outbox == old(outbox) + (if alive then RecipientPush(sessions, ev.recipient.value, m) + [Push(self, NewMessage, m)] else [])
      ensures ev.BotMessage? ==>
                var sent := Slide(old(cache.GetContext(user)), ev.question);
                var reply := ReplyFor(ev.complete(PromptAsWritten(sent, ev.question)));
                var m := BotReplyMessage(user, reply, ev.id, ev.now);
                cache.windows == old(cache.windows)[user := Slide(sent, reply)] &&
                alive == !(store.online && HasId(old(store.rows), ev.id)) &&
                store.rows == (if store.online && alive then old(store.rows) + [m] else old(store.rows)) &&
                outbox == old(outbox) + (if alive then [Push(self, BotReply, m)] else [])
    {
      match ev
      case SendMessage(recipient, content, id, now) =>
        alive := HandleSend(user, self, recipient, content, id, now);
      case BotMessage(question, id, now, complete) =>
        alive := HandleBot(user, self, question, id, now, complete);
      case Unrecognised =>
        alive := true;
      case Malformed =>
        alive := false;
    }

    /**
      `websocket_endpoint`: registers the connection, handles frames until one
      raises or the client leaves, and removes the key only on a disconnect.
     */
    method RunSession(user: string, h: Handle, events: seq<Event>) returns (crashed: bool)
      requires Valid()
      modifies this, store, cache
      ensures Valid()
      ensures crashed ==> sessions == old(sessions)[user := h]
      ensures !crashed ==> sessions == old(sessions) - {user}
      ensures old(outbox) <= outbox
      ensures store.users == old(store.users)
    {
      Connect(user, h);
      crashed := false;
      var i := 0;
      while i < |events| && !crashed
        invariant 0 <= i <= |events|
        invariant Valid()
        invariant sessions == old(sessions)[user := h]
        invariant old(outbox) <= outbox
        invariant store.users == old(store.users)
      {
        var alive := HandleEvent(user, h, events[i]);
        crashed := !alive;
        i := i + 1;
      }
      if !crashed {
        Disconnect(user);
      }
    }

    /** `POST /register`: both fields required, an existing user refused, otherwise `create_user`. */
    method Register(email: Option<string>, password: Option<string>, now: nat) returns (r: Response)
      requires Valid()
      modifies store
      ensures Valid()
      ensures store.rows == old(store.rows)
      ensures !Truthy(email) || !Truthy(password) ==>
                r == Rejected("Email and password are required") && store.users == old(store.users)
      ensures Truthy(email) && Truthy(password) && old(store.GetUser(email.value)).Some? ==>
                r == Rejected("User already exists") && store.users == old(store.users)
      ensures Truthy(email) && Truthy(password) && old(store.GetUser(email.value)).None? ==>
                r == Success("User registered successfully") &&
                store.users == (if store.online then old(store.users)[email.value := now] else old(store.users))
    {
      if !Truthy(email) || !Truthy(password) {
        return Rejected("Email and password are required");
      }
      var existing := store.GetUser(email.value);
      if existing.Some? {
        return Rejected("User already exists");
      }
      store.CreateUser(email.value, now);
      r := Success("User registered successfully");
    }

    /** `POST /messages`: sender and status forced, `is_bot_response` defaults to false, nothing pushed. */
    method SendMessageRest(currentUser: string, req: SendRequest, now: nat) returns (r: Response)
      requires Valid()
      modifies store
      ensures Valid()
      ensures outbox == old(outbox) && sessions == old(sessions)
      ensures store.users == old(store.users)
      ensures req.messageId.None? || req.recipient.None? || req.content.None? ==>
                r == Failed(MissingField) && store.rows == old(store.rows)
      ensures req.messageId.Some? && req.recipient.Some? && req.content.Some? ==>
                var m := Message(req.messageId.value, currentUser, req.recipient.value, req.content.value,
                                 now, Sent, req.isBotResponse.GetOr(false));
                (store.online && HasId(old(store.rows), m.id) ==> r == Failed(DuplicateId) && store.rows == old(store.rows)) &&
                (!store.online ==> r == Success("Message sent") && store.rows == old(store.rows)) &&
                (store.online && !HasId(old(store.rows), m.id) ==> r == Success("Message sent") && store.rows == old(store.rows) + [m])
    {
      if req.messageId.None? || req.recipient.None? || req.content.None? {
        return Failed(MissingField);
      }
      var m := Message(req.messageId.value, currentUser, req.recipient.value, req.content.value,
                       now, Sent, req.isBotResponse.GetOr(false));
      var written := store.CreateMessage(m);
      if written == DuplicateKey {
        return Failed(DuplicateId);
      }
      r := Success("Message sent");
    }

    /** `PUT /messages/{id}/status`: the status string is parsed before the store is touched. */
    method UpdateStatusRest(messageId: string, status: string) returns (r: Response)
      requires Valid()
      modifies store
      ensures Valid()
      ensures outbox == old(outbox) && sessions == old(sessions)
      ensures store.users == old(store.users)
      ensures ParseStatus(status).None? ==> r == Failed(BadStatus) && store.rows == old(store.rows)
      ensures ParseStatus(status).Some? ==>
                r == Success("Status updated") &&
                store.rows == (if store.online then SetStatus(old(store.rows), messageId, ParseStatus(status).value) else old(store.rows))
    {
      var s := ParseStatus(status);
      if s.None? {
        return Failed(BadStatus);
      }
      SetStatusKeepsIds(store.rows, messageId, s.value);
      store.UpdateStatus(messageId, s.value);
      r := Success("Status updated");
    }
  }
}
