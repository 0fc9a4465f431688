/** The messaging service (fastapi/message_api.py): a module-level list
    `messages_db`, the handlers that append to, overwrite and delete from
    it, and the two case-insensitive filters. Generated ids (`uuid4`) and
    timestamps (`datetime.now()`) are parameters. */
module Messages {
  import opened Common
  import opened Seqs
  import opened Text

  /** The body of POST /messages/ (MessageCreate). */
  datatype MessageCreate = MessageCreate(sender: string, recipient: string, content: string)

  /** The body of PUT /messages/{id} (MessageUpdate): each field was sent or
      not, and a sent field may be null. */
  datatype MessageUpdate = MessageUpdate(content: Field<Option<string>>, isRead: Field<Option<bool>>)

  /** A stored message. `content` and `isRead` are set when created; they
      are options because `copy(update=...)` does not validate, so an update
      that sends an explicit null stores None. */
  datatype Message = Message(
    id: string, sender: string, recipient: string, content: Option<string>,
    timestamp: string, isRead: Option<bool>)

  /** Which party a filter looks at. */
  datatype Role = Sender | Recipient

  function PartyOf(m: Message, role: Role): string {
    match role
    case Sender => m.sender
    case Recipient => m.recipient
  }

  /** The ids of a store, in store order. */
  function Ids(db: seq<Message>): (ids: seq<string>)
    ensures |ids| == |db| && forall i :: 0 <= i < |db| ==> ids[i] == db[i].id
  {
    seq(|db|, i requires 0 <= i < |db| => db[i].id)
  }

  /** The record `create_message` builds: unread, stamped `now`. */
  function NewMessage(req: MessageCreate, id: string, now: string): (m: Message)
    ensures m.id == id && m.timestamp == now
    ensures m.sender == req.sender && m.recipient == req.recipient
    ensures m.content == Some(req.content) && m.isRead == Some(false)
  {
    Message(id, req.sender, req.recipient, Some(req.content), now, Some(false))
  }

  /** `message.copy(update=message_update.dict(exclude_unset=True))`: only the
      sent fields among `content` and `is_read` change. */
  function ApplyUpdate(m: Message, upd: MessageUpdate): (q: Message)
    ensures q.id == m.id && q.sender == m.sender && q.recipient == m.recipient
    ensures q.timestamp == m.timestamp
    ensures q.content == (if upd.content.Set? then upd.content.value else m.content)
    ensures q.isRead == (if upd.isRead.Set? then upd.isRead.value else m.isRead)
  {
    m.(content := Overlay(m.content, upd.content), isRead := Overlay(m.isRead, upd.isRead))
  }

  /** `[msg for msg in db if getattr(msg, role).lower() == name.lower()]`. */
  function MessagesWith(db: seq<Message>, role: Role, name: string): (r: seq<Message>)
    ensures IsSubsequence(r, db)
    ensures forall m :: multiset(r)[m] ==
              if Lower(PartyOf(m, role)) == Lower(name) then multiset(db)[m] else 0
  {
    if db == [] then []
    else
      var rest := MessagesWith(db[1..], role, name);
      assert db == [db[0]] + db[1..];
      if Lower(PartyOf(db[0], role)) == Lower(name) then [db[0]] + rest else rest
  }

  /** The filter returns a message exactly when the store holds it and it
      involves `name` in that role. */
  lemma MessagesWithMembers(db: seq<Message>, role: Role, name: string)
    ensures forall m :: m in MessagesWith(db, role, name) <==>
              m in db && EqualsIgnoreCase(PartyOf(m, role), name)
  {
  }

  /** Popping entry `i` pops the same position from the ids. */
  lemma RemoveAtIds(db: seq<Message>, i: nat)
    requires i < |db|
    ensures Ids(RemoveAt(db, i)) == RemoveAt(Ids(db), i)
  {
  }

  /** Replacing entry `i` by a record with the same id keeps the ids. */
  lemma ReplaceKeepsIds(db: seq<Message>, i: nat, q: Message)
    requires i < |db| && q.id == db[i].id
    ensures Ids(db[i := q]) == Ids(db)
  {
  }

  /** A message that `create_message` appended under a fresh id is what
      `get_message` returns for that id. */
  lemma CreatedMessageIsFound(db: seq<Message>, req: MessageCreate, id: string, now: string)
    requires id !in Ids(db)
    ensures IndexOf(Ids(db + [NewMessage(req, id, now)]), id) == Some(|db|)
  {
    var m := NewMessage(req, id, now);
    assert Ids(db + [m]) == Ids(db) + [id];
    IndexOfAppend(Ids(db), id, id);
  }

  /** With distinct ids, once a message is deleted its id is gone: a second
      delete or get answers 404. */
  lemma DeletedMessageIsGone(db: seq<Message>, id: string)
    requires Distinct(Ids(db)) && IndexOf(Ids(db), id).Some?
    ensures id !in Ids(RemoveAt(db, IndexOf(Ids(db), id).value))
  {
  }

  /** `messages_db`, with one method per handler that touches it. */
  class MessageStore {
    var messages: seq<Message>

    /** Ids stay pairwise distinct as long as every generated id is fresh. */
    ghost predicate Valid()
      reads this
    {
      Distinct(Ids(messages))
    }

    constructor ()
      ensures Valid() && messages == []
    {
      messages := [];
    }

    /** GET /messages/{message_id}: the first message with that id, or 404. */
    method GetMessage(messageId: string) returns (r: Result<Message>)
      ensures match IndexOf(Ids(messages), messageId)
              case None => r == Err(NotFound)
              case Some(i) => r == Ok(messages[i])
    {
      for i := 0 to |messages|
        invariant forall j :: 0 <= j < i ==> messages[j].id != messageId
      {
        if messages[i].id == messageId {
          IndexOfIsFirst(Ids(messages), messageId, i);
          return Ok(messages[i]);
        }
      }
      return Err(NotFound);
    }

    /** POST /messages/: appends an unread message. `newId` stands for
        `uuid4()` and `now` for the creation time. */
    method CreateMessage(req: MessageCreate, newId: string, now: string) returns (m: Message)
      requires Valid()
      requires newId !in Ids(messages)
      modifies this
      ensures Valid()
      ensures m == NewMessage(req, newId, now)
      ensures messages == old(messages) + [m]
    {
      m := NewMessage(req, newId, now);
      assert Ids(messages + [m]) == Ids(messages) + [newId];
      messages := messages + [m];
    }

    /** PUT /messages/{message_id}: overlays the sent fields on the first
        message with that id; 404 when no message has that id. */
    method UpdateMessage(messageId: string, upd: MessageUpdate) returns (r: Result<Message>)
      requires Valid()
      modifies this
      ensures Valid()
      ensures match IndexOf(Ids(old(messages)), messageId)
              case None => r == Err(NotFound) && messages == old(messages)
              case Some(i) => r == Ok(ApplyUpdate(old(messages)[i], upd)) &&
                              messages == old(messages)[i := r.value]
    {
      for i := 0 to |messages|
        invariant forall j :: 0 <= j < i ==> messages[j].id != messageId
      {
        if messages[i].id == messageId {
          IndexOfIsFirst(Ids(messages), messageId, i);
          var updated := ApplyUpdate(messages[i], upd);
          ReplaceKeepsIds(messages, i, updated);
          messages := messages[i := updated];
          return Ok(updated);
        }
      }
      return Err(NotFound);
    }

    /** DELETE /messages/{message_id}: deletes the first message with that
        id; 404 when no message has that id. */
    method DeleteMessage(messageId: string) returns (r: Result<()>)
      requires Valid()
      modifies this
      ensures Valid()
      ensures match IndexOf(Ids(old(messages)), messageId)
              case None => r == Err(NotFound) && messages == old(messages)
              case Some(i) => r == Ok(()) && messages == RemoveAt(old(messages), i)
    {
      for i := 0 to |messages|
        invariant forall j :: 0 <= j < i ==> messages[j].id != messageId
      {
        if messages[i].id == messageId {
          IndexOfIsFirst(Ids(messages), messageId, i);
          RemoveAtIds(messages, i);
          RemoveAtKeepsDistinct(Ids(messages), i);
          messages := RemoveAt(messages, i);
          return Ok(());
        }
      }
      return Err(NotFound);
    }

    /** GET /messages/sender/{sender}. */
    function MessagesBySender(sender: string): (r: seq<Message>)
      reads this
      ensures IsSubsequence(r, messages)
      ensures forall m :: m in r <==> m in messages && EqualsIgnoreCase(m.sender, sender)
    {
      MessagesWithMembers(messages, Sender, sender);
      MessagesWith(messages, Sender, sender)
    }

    /** GET /messages/recipient/{recipient}. */
    function MessagesByRecipient(recipient: string): (r: seq<Message>)
      reads this
      ensures IsSubsequence(r, messages)
      ensures forall m :: m in r <==> m in messages && EqualsIgnoreCase(m.recipient, recipient)
    {
      MessagesWithMembers(messages, Recipient, recipient);
      MessagesWith(messages, Recipient, recipient)
    }
  }
}
