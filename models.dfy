/**
  The message and user store of backend/models.py: the `messages` and `users`
  tables behind the MySQL cursor, held in memory. Timestamps are naturals; a
  store created without a connection (`cursor is None`) ignores every write and
  answers every read with an empty result.
 */
module Models {
  import opened Options

  /** The three delivery states; the table stores each as its literal value. */
  datatype MessageStatus = Sent | Delivered | Read

  /** The enum member's `value`, the string written to the `status` column. */
  function StatusValue(s: MessageStatus): string
  {
    match s
    case Sent => "Sent"
    case Delivered => "Delivered"
    case Read => "Read"
  }

  /** `MessageStatus(t)`: the member whose value is `t`; None where Python raises ValueError. */
  function ParseStatus(t: string): (r: Option<MessageStatus>)
    ensures r.Some? <==> t == "Sent" || t == "Delivered" || t == "Read"
    ensures r.Some? ==> StatusValue(r.value) == t
    ensures r.None? ==> forall s: MessageStatus :: StatusValue(s) != t
  {
    if t == "Sent" then Some(Sent)
    else if t == "Delivered" then Some(Delivered)
    else if t == "Read" then Some(Read)
    else None
  }

  /** Parsing a member's own value gives the member back. */
  lemma StatusRoundTrip(s: MessageStatus)
    ensures ParseStatus(StatusValue(s)) == Some(s)
  {
  }

  datatype Message = Message(
    id: string,
    sender: string,
    recipient: string,
    content: string,
    timestamp: nat,
    status: MessageStatus,
    isBotResponse: bool)

  datatype User = User(email: string, createdAt: nat)

  /** What an INSERT into `messages` did. */
  datatype WriteResult =
    | Written
    | DuplicateKey   // the primary key refused the row (IntegrityError in the source)
    | NoConnection   // `cursor is None`: nothing was executed

  // ---------------------------------------------------------------- the table

  predicate HasId(rows: seq<Message>, id: string)
  {
    exists i :: 0 <= i < |rows| && rows[i].id == id
  }

  /** `message_id` is the primary key of `messages`. */
  ghost predicate UniqueIds(rows: seq<Message>)
  {
    forall i, j :: 0 <= i < j < |rows| ==> rows[i].id != rows[j].id
  }

  /** The WHERE clause of the conversation query. */
  predicate Involves(m: Message, u1: string, u2: string)
  {
    (m.sender == u1 && m.recipient == u2) || (m.sender == u2 && m.recipient == u1)
  }

  /** The rows the WHERE clause keeps, in table order. */
  function Matching(rows: seq<Message>, u1: string, u2: string): seq<Message>
  {
    if rows == [] then []
    else if Involves(rows[|rows| - 1], u1, u2) then Matching(rows[..|rows| - 1], u1, u2) + [rows[|rows| - 1]]
    else Matching(rows[..|rows| - 1], u1, u2)
  }

  ghost predicate SortedByTime(s: seq<Message>)
  {
    forall i, j :: 0 <= i < j < |s| ==> s[i].timestamp <= s[j].timestamp
  }

  /** Places `m` after every row whose timestamp is not later than its own. */
  function InsertByTime(sorted: seq<Message>, m: Message): (r: seq<Message>)
    ensures multiset(r) == multiset(sorted) + multiset{m}
  {
    if sorted == [] || sorted[|sorted| - 1].timestamp <= m.timestamp then
      sorted + [m]
    else
      assert sorted == sorted[..|sorted| - 1] + [sorted[|sorted| - 1]];
      InsertByTime(sorted[..|sorted| - 1], m) + [sorted[|sorted| - 1]]
  }

  /** Appending a row no earlier than every row of a sorted sequence keeps it sorted. */
  lemma AppendLatest(s: seq<Message>, last: Message)
    requires SortedByTime(s)
    requires forall x: Message | x in multiset(s) :: x.timestamp <= last.timestamp
    ensures SortedByTime(s + [last])
  {
    forall k | 0 <= k < |s| ensures s[k].timestamp <= last.timestamp {
      assert s[k] in multiset(s);
    }
  }

  /** Inserting into a sorted sequence keeps it sorted. */
  lemma {:induction false} InsertSorted(sorted: seq<Message>, m: Message)
    requires SortedByTime(sorted)
    ensures SortedByTime(InsertByTime(sorted, m))
  {
    if sorted == [] || sorted[|sorted| - 1].timestamp <= m.timestamp {
      AppendLatest(sorted, m);
    } else {
      var init, last := sorted[..|sorted| - 1], sorted[|sorted| - 1];
      assert sorted == init + [last];
      InsertSorted(init, m);
      var front := InsertByTime(init, m);
      forall x: Message | x in multiset(front) ensures x.timestamp <= last.timestamp {
        if x != m {
          assert x in multiset(init);
          var k :| 0 <= k < |init| && init[k] == x;
          assert sorted[k] == x;
        }
      }
      AppendLatest(front, last);
    }
  }

  /** ORDER BY timestamp, as a stable insertion sort. */
  function SortByTime(s: seq<Message>): (r: seq<Message>)
    ensures multiset(r) == multiset(s)
    ensures SortedByTime(r)
  {
    if s == [] then []
    else
      assert s == s[..|s| - 1] + [s[|s| - 1]];
      InsertSorted(SortByTime(s[..|s| - 1]), s[|s| - 1]);
      InsertByTime(SortByTime(s[..|s| - 1]), s[|s| - 1])
  }

  /** What `get_conversation(u1, u2)` returns from a connected store holding `rows`. */
  function Conversation(rows: seq<Message>, u1: string, u2: string): seq<Message>
  {
    SortByTime(Matching(rows, u1, u2))
  }

  lemma {:induction false} MatchingCount(rows: seq<Message>, u1: string, u2: string, m: Message)
    ensures multiset(Matching(rows, u1, u2))[m] == if Involves(m, u1, u2) then multiset(rows)[m] else 0
  {
    if rows != [] {
      var init, last := rows[..|rows| - 1], rows[|rows| - 1];
      assert rows == init + [last];
      MatchingCount(init, u1, u2, m);
    }
  }

  /** Every copy of a row between the two users is in the conversation, and nothing else is. */
  lemma ConversationCount(rows: seq<Message>, u1: string, u2: string, m: Message)
    ensures multiset(Conversation(rows, u1, u2))[m] == if Involves(m, u1, u2) then multiset(rows)[m] else 0
  {
    MatchingCount(rows, u1, u2, m);
  }

  /** The conversation holds exactly the rows whose (sender, recipient) is (u1, u2) or (u2, u1). */
  lemma ConversationMembers(rows: seq<Message>, u1: string, u2: string)
    ensures forall m :: m in Conversation(rows, u1, u2) <==> m in rows && Involves(m, u1, u2)
  {
    forall m ensures m in Conversation(rows, u1, u2) <==> m in rows && Involves(m, u1, u2) {
      ConversationCount(rows, u1, u2, m);
      assert m in Conversation(rows, u1, u2) <==> m in multiset(Conversation(rows, u1, u2));
      assert m in rows <==> m in multiset(rows);
    }
  }

  lemma {:induction false} MatchingSymmetric(rows: seq<Message>, u1: string, u2: string)
    ensures Matching(rows, u1, u2) == Matching(rows, u2, u1)
  {
    if rows != [] {
      MatchingSymmetric(rows[..|rows| - 1], u1, u2);
    }
  }

  /** Swapping the two users gives back the same conversation, row for row. */
  lemma ConversationSymmetric(rows: seq<Message>, u1: string, u2: string)
    ensures Conversation(rows, u1, u2) == Conversation(rows, u2, u1)
    ensures multiset(Conversation(rows, u1, u2)) == multiset(Conversation(rows, u2, u1))
  {
    MatchingSymmetric(rows, u1, u2);
  }

  /** A message written into a table that did not hold its id shows up exactly once in its conversation. */
  lemma InsertedOnce(rows: seq<Message>, m: Message)
    requires UniqueIds(rows) && !HasId(rows, m.id)
    ensures multiset(Conversation(rows + [m], m.sender, m.recipient))[m] == 1
  {
    ConversationCount(rows + [m], m.sender, m.recipient, m);
    assert forall k | 0 <= k < |rows| :: rows[k].id != m.id;
    assert m !in rows;
    assert multiset(rows + [m]) == multiset(rows) + multiset{m};
  }

  /** The rows after `UPDATE messages SET status = s WHERE message_id = id`. */
  function SetStatus(rows: seq<Message>, id: string, s: MessageStatus): (r: seq<Message>)
    ensures |r| == |rows|
  {
    seq(|rows|, i requires 0 <= i < |rows| => if rows[i].id == id then rows[i].(status := s) else rows[i])
  }

  /**
    The row with the id takes the new status whatever it was before; every
    other field of it, and every other row, stays as it was.
   */
  lemma SetStatusAt(rows: seq<Message>, id: string, s: MessageStatus, i: nat)
    requires i < |rows|
    ensures rows[i].id == id ==> SetStatus(rows, id, s)[i] == rows[i].(status := s)
    ensures rows[i].id != id ==> SetStatus(rows, id, s)[i] == rows[i]
  {
  }

  /** An unknown id leaves the table as it was. */
  lemma SetStatusUnknownId(rows: seq<Message>, id: string, s: MessageStatus)
    requires !HasId(rows, id)
    ensures SetStatus(rows, id, s) == rows
  {
    forall i | 0 <= i < |rows| ensures SetStatus(rows, id, s)[i] == rows[i] {
      assert rows[i].id != id;
    }
  }

  /** A status update keeps every id where it was, so the key stays unique. */
  lemma SetStatusKeepsIds(rows: seq<Message>, id: string, s: MessageStatus)
    ensures forall x :: HasId(SetStatus(rows, id, s), x) <==> HasId(rows, x)
    ensures UniqueIds(rows) ==> UniqueIds(SetStatus(rows, id, s))
  {
    var r := SetStatus(rows, id, s);
    assert forall i | 0 <= i < |rows| :: r[i].id == rows[i].id;
  }

  // ---------------------------------------------------------------- the store

  class MessageStore {
    /** False when the MySQL connection could not be made at start-up. */
    const online: bool
    /** The `messages` table, in insertion order. */
    var rows: seq<Message>
    /** The `users` table: email to `created_at`. */
    var users: map<string, nat>

    ghost predicate Valid()
      reads this
    {
      UniqueIds(rows)
    }

    constructor (online: bool)
      ensures this.online == online
      ensures rows == [] && users == map[]
      ensures Valid()
    {
      this.online := online;
      rows := [];
      users := map[];
    }

    /** `create_message`: a plain INSERT. */
    method CreateMessage(m: Message) returns (r: WriteResult)
      requires Valid()
      modifies this
      ensures Valid()
      ensures r == if !online then NoConnection else if HasId(old(rows), m.id) then DuplicateKey else Written
      ensures rows == if r == Written then old(rows) + [m] else old(rows)
      ensures users == old(users)
    {
      if !online {
        return NoConnection;
      }
      if HasId(rows, m.id) {
        return DuplicateKey;
      }
      rows := rows + [m];
      r := Written;
    }

    /** `get_conversation`: the matching rows ordered by timestamp; [] without a connection. */
    method GetConversation(u1: string, u2: string) returns (r: seq<Message>)
      ensures r == if online then Conversation(rows, u1, u2) else []
      ensures forall m :: m in r <==> online && m in rows && Involves(m, u1, u2)
      ensures SortedByTime(r)
    {
      if !online {
        return [];
      }
      r := [];
      var i := 0;
      while i < |rows|
        invariant 0 <= i <= |rows|
        invariant r == Conversation(rows[..i], u1, u2)
      {
        var row := rows[i];
        assert rows[..i + 1][..i] == rows[..i];
        if Involves(row, u1, u2) {
          r := InsertByTime(r, row);
          assert Matching(rows[..i + 1], u1, u2) == Matching(rows[..i], u1, u2) + [row];
        }
        i := i + 1;
      }
      assert rows[..i] == rows;
      ConversationMembers(rows, u1, u2);
    }

    /** `update_message_status`: overwrites the status; an unknown id changes nothing and is no error. */
    method UpdateStatus(id: string, s: MessageStatus)
      requires Valid()
      modifies this
      ensures Valid()
      ensures rows == if online then SetStatus(old(rows), id, s) else old(rows)
      ensures users == old(users)
    {
      if !online {
        return;
      }
      SetStatusKeepsIds(rows, id, s);
      rows := SetStatus(rows, id, s);
    }

    /** `create_user`: INSERT IGNORE, so an existing user keeps its `created_at`. */
    method CreateUser(email: string, now: nat)
      requires Valid()
      modifies this
      ensures Valid()
      ensures users == if online && email !in old(users) then old(users)[email := now] else old(users)
      ensures online ==> email in users
      ensures email in old(users) ==> users == old(users)
      ensures rows == old(rows)
    {
      if !online {
        return;
      }
      if email !in users {
        users := users[email := now];
      }
    }

    /** `get_user`: the row for the email, None when absent or without a connection. */
    function GetUser(email: string): (r: Option<User>)
      reads this
      ensures r.Some? <==> online && email in users
      ensures r.Some? ==> r.value.email == email && r.value.createdAt == users[email]
    {
      if online && email in users then Some(User(email, users[email])) else None
    }
  }
}
