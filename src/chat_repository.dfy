/** The `chat_message` table and the reads `ChatRepository` runs on it
    (internal/repository/chat_repository.go). Messages are kept in id order, which is the order
    of their creation times. */
module ChatRepo {
  import opened Wrappers
  import opened Tables
  import opened Sql

  /** The text of Go's `sql.ErrNoRows`. */
  const ErrNoRows := "sql: no rows in result set"

  /** The number of messages `GetNotification` returns at most. */
  const NotificationLimit := 10

  /** A `chat_message` row; `None` is SQL NULL. */
  datatype ChatMessage = ChatMessage(
    id: nat,
    room: Option<string>,
    identity: Option<string>,
    chatIdentity: Option<string>,
    userName: Option<string>,
    text: Option<string>,
    color: Option<string>,
    files: Option<string>,
    replyToMessageId: Option<int>,
    replyToUserName: Option<string>,
    replyToText: Option<string>,
    dtmCreated: Option<string>,
    userType: Option<string>)

  datatype SaveMessageParams = SaveMessageParams(
    room: string,
    identity: string,
    chatIdentity: string,
    userName: string,
    userType: string,
    text: string,
    files: string,
    color: string,
    replyToMessageId: int,
    replyToUserName: string,
    replyToText: string)

  function Inserted(id: nat, p: SaveMessageParams, now: string): (m: ChatMessage)
    ensures m.id == id && m.room == Some(p.room) && m.text == Some(p.text) && m.userType == Some(p.userType)
    ensures m.dtmCreated == Some(now)
  {
    ChatMessage(id, Some(p.room), Some(p.identity), Some(p.chatIdentity), Some(p.userName), Some(p.text),
      Some(p.color), Some(p.files), Some(p.replyToMessageId), Some(p.replyToUserName), Some(p.replyToText),
      Some(now), Some(p.userType))
  }

  function InRoom(room: string): ChatMessage -> bool {
    (m: ChatMessage) => m.room == Some(room)
  }

  /** `WHERE room = ? AND userType = 'user'`. */
  function UserMessageIn(room: string): ChatMessage -> bool {
    (m: ChatMessage) => m.room == Some(room) && m.userType == Some("user")
  }

  function HasId(id: int): ChatMessage -> bool {
    (m: ChatMessage) => m.id == id
  }

  /** Reversing twice gives the sequence back. */
  lemma {:induction false} ReversedTwice<R>(s: seq<R>)
    ensures Reversed(Reversed(s)) == s
  {
    var r := Reversed(Reversed(s));
    assert |r| == |s|;
    forall i | 0 <= i < |s|
      ensures r[i] == s[i]
    {
      assert r[i] == Reversed(s)[|s| - 1 - i];
    }
  }

  /** Reversing keeps every message, each as often as before. */
  lemma {:induction false} ReversedPermutes<R>(s: seq<R>)
    ensures multiset(Reversed(s)) == multiset(s)
  {
    if s != [] {
      var n := |s| - 1;
      ReversedPermutes(s[..n]);
      assert Reversed(s) == [s[n]] + Reversed(s[..n]);
      assert s == s[..n] + [s[n]];
    }
  }

  /** The `limit` messages just before the newest `offset` ones, oldest first. */
  function Window<R>(f: seq<R>, limit: nat, offset: nat): (w: seq<R>)
    ensures |w| <= limit
    ensures offset >= |f| ==> w == []
    ensures offset < |f| && |f| - offset <= limit ==> w == f[..|f| - offset]
  {
    var hi := if offset < |f| then |f| - offset else 0;
    var lo := if hi > limit then hi - limit else 0;
    f[lo..hi]
  }

  /** Reversing a newest-first page gives the page in chronological order. */
  lemma {:induction false} ChronologicalPage<R>(f: seq<R>, limit: nat, offset: nat)
    ensures Reversed(Page(Reversed(f), limit, offset)) == Window(f, limit, offset)
  {
    var hi := if offset < |f| then |f| - offset else 0;
    var lo := if hi > limit then hi - limit else 0;
    var page := Page(Reversed(f), limit, offset);
    var r := Reversed(page);
    assert |page| == hi - lo;
    forall k | 0 <= k < |r|
      ensures r[k] == f[lo..hi][k]
    {
      assert r[k] == page[|page| - 1 - k];
      assert page[|page| - 1 - k] == Reversed(f)[offset + |page| - 1 - k];
    }
  }

  /** Go's two-index swap loop: afterwards `a[k]` is what `a[n-1-k]` was, for every k. */
  method ReverseInPlace(a: array<ChatMessage>)
    modifies a
    ensures a[..] == Reversed(old(a[..]))
  {
    ghost var orig := a[..];
    var i, j := 0, a.Length - 1;
    while i < j
      invariant 0 <= i && j == a.Length - 1 - i && i <= j + 1
      invariant forall k :: 0 <= k < i ==> a[k] == orig[a.Length - 1 - k]
      invariant forall k :: j < k < a.Length ==> a[k] == orig[a.Length - 1 - k]
      invariant forall k :: i <= k <= j ==> a[k] == orig[k]
    {
      a[i], a[j] := a[j], a[i];
      i, j := i + 1, j - 1;
    }
  }

  /** `GetNotification` selects id, room, identity, userName, text, dtmCreated and userType;
      the other columns are left as Go zero values. */
  function NotificationView(m: ChatMessage): ChatMessage {
    m.(chatIdentity := None, color := None, files := None, replyToMessageId := None, replyToUserName := None,
       replyToText := None)
  }

  class ChatRepository {
    var rows: seq<ChatMessage>
    var nextId: nat

    /** Ids are below the next id and ascend along the table, as an auto-increment key does. */
    predicate Valid()
      reads this
    {
      && (forall i :: 0 <= i < |rows| ==> rows[i].id < nextId)
      && (forall i, j :: 0 <= i < j < |rows| ==> rows[i].id < rows[j].id)
    }

    constructor (rows: seq<ChatMessage>, nextId: nat)
      requires forall i :: 0 <= i < |rows| ==> rows[i].id < nextId
      requires forall i, j :: 0 <= i < j < |rows| ==> rows[i].id < rows[j].id
      ensures this.rows == rows && this.nextId == nextId && Valid()
    {
      this.rows := rows;
      this.nextId := nextId;
    }

    method SaveMessage(p: SaveMessageParams, now: string, db: Outcome) returns (id: int, err: Error)
      requires Valid()
      modifies this
      ensures Valid()
      ensures err == Wrap("save chat message", db)
      ensures db.Success? ==>
        id == old(nextId) && rows == old(rows) + [Inserted(old(nextId), p, now)] && nextId == old(nextId) + 1
      ensures db.Failure? ==> id == 0 && rows == old(rows) && nextId == old(nextId)
    {
      err := Wrap("save chat message", db);
      if db.Success? {
        id := nextId;
        rows := rows + [Inserted(nextId, p, now)];
        nextId := nextId + 1;
      } else {
        id := 0;
      }
    }

    /** The room's whole history, oldest first. */
    method GetHistory(room: string, db: Outcome) returns (messages: seq<ChatMessage>, err: Error)
      ensures err == Wrap("get chat history", db)
      ensures messages == if db.Success? then Filter(rows, InRoom(room)) else []
    {
      err := Wrap("get chat history", db);
      messages := if db.Success? then Filter(rows, InRoom(room)) else [];
    }

    /** Fetches a newest-first page of the room's messages and reverses it in place, so the
        answer is the latest `limit` messages before the newest `offset` ones, oldest first. */
    method GetHistoryWithLimit(room: string, limit: nat, offset: nat, db: Outcome)
      returns (messages: seq<ChatMessage>, err: Error)
      ensures err == Wrap("get chat history", db)
      ensures db.Failure? ==> messages == []
      ensures db.Success? ==> messages == Window(Filter(rows, InRoom(room)), limit, offset)
      ensures db.Success? ==> multiset(messages) == multiset(Page(Reversed(Filter(rows, InRoom(room))), limit, offset))
    {
      err := Wrap("get chat history", db);
      if db.Failure? {
        return [], err;
      }
      var fetched := Page(Reversed(Filter(rows, InRoom(room))), limit, offset);
      var a := new ChatMessage[|fetched|](i requires 0 <= i < |fetched| => fetched[i]);
      assert a[..] == fetched;
      ReverseInPlace(a);
      messages := a[..];
      assert messages == Reversed(fetched);
      ChronologicalPage(Filter(rows, InRoom(room)), limit, offset);
      ReversedPermutes(fetched);
    }

    /** The newest ten `user` messages of the room, newest first, seen through the seven
        selected columns. */
    method GetNotification(room: string, db: Outcome) returns (messages: seq<ChatMessage>, err: Error)
      ensures err == Wrap("get chat notification", db)
      ensures messages == if db.Success? then
        ProjectAll(Page(Reversed(Filter(rows, UserMessageIn(room))), NotificationLimit, 0), NotificationView) else []
      ensures |messages| <= NotificationLimit
      ensures forall m :: m in messages ==>
        m.room == Some(room) && m.userType == Some("user") && m.files.None? && m.color.None?
        && exists x :: x in rows && m == NotificationView(x)
    {
      err := Wrap("get chat notification", db);
      if db.Success? {
        var page := Page(Reversed(Filter(rows, UserMessageIn(room))), NotificationLimit, 0);
        messages := ProjectAll(page, NotificationView);
        PageOfMatches(rows, UserMessageIn(room), NotificationLimit, 0);
        forall m | m in messages
          ensures m.room == Some(room) && m.userType == Some("user") && exists x :: x in rows && m == NotificationView(x)
        {
          var i :| 0 <= i < |messages| && messages[i] == m;
          assert page[i] in page;
        }
      } else {
        messages := [];
      }
    }

    /** Unlike the other lookups, a missing message is an error. */
    method GetMessageByID(id: int, db: Outcome) returns (m: Option<ChatMessage>, err: Error)
      ensures db.Failure? ==> m.None? && err == Wrap("get message by ID", db)
      ensures db.Success? ==> m == FirstWhere(rows, HasId(id))
      ensures db.Success? ==> (err.None? <==> m.Some?)
      ensures db.Success? && m.None? ==> err == Wrap("get message by ID", Failure(ErrNoRows))
    {
      if db.Failure? {
        return None, Wrap("get message by ID", db);
      }
      m := FirstWhere(rows, HasId(id));
      err := if m.Some? then None else Wrap("get message by ID", Failure(ErrNoRows));
    }
  }
}
