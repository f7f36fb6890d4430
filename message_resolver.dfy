/**
 * Messages: the sender field with its placeholder for deleted users, lookup
 * by id, creation (stored, appended to its chat, published on the chat's
 * topic), and deletion by the sender or by an admin.
 */
module MessageResolver {
  import opened Wrappers
  import opened Records
  import opened Auth

  /** The user shown as the sender of a message whose sender no longer exists. */
  const DeletedUser := User("DELETED", "DELETED", "DELETED", "DELETED", "DELETED",
                            1697133837252, "DELETED", 404)

  /** What a `deleteMessage` on an unknown id throws when it reads the sender of null. */
  const NullMessageCrash := "Cannot read properties of null (reading 'sender')"

  /** `Message.sender`: the stored sender, or the placeholder when it is gone. */
  function Sender(users: map<UserId, User>, message: Message): (r: User)
    ensures message.sender in users ==> r == users[message.sender]
    ensures message.sender !in users ==> r == DeletedUser
  {
    if message.sender in users then users[message.sender] else DeletedUser
  }

  /**
   * When no stored user has the role 'DELETED', a sender shows that role
   * exactly when its user is no longer stored.
   */
  lemma SenderPlaceholderIffDeleted(users: map<UserId, User>, message: Message)
    requires forall u :: u in users ==> users[u].role != "DELETED"
    ensures Sender(users, message).role == "DELETED" <==> message.sender !in users
  {
  }

  /** `Query.messageById`. */
  function MessageById(messages: map<MessageId, Message>, messageId: MessageId)
    : (r: Result<Message, string>)
    ensures r.Ok? <==> messageId in messages
    ensures r.Ok? ==> r.value == messages[messageId]
    ensures r.Err? ==> r.error == "Message not found"
  {
    if messageId in messages then Ok(messages[messageId]) else Err("Message not found")
  }

  /** The payload published on the chat's topic when a message is created. */
  datatype MessageCreated = MessageCreated(
    topic: ChatId, id: MessageId, createdDate: int, messages: seq<MessageId>, users: UserId)

  /** `deleteMessage`'s decision: who may delete, and what is answered otherwise. */
  function DeleteMessageCheck(messages: map<MessageId, Message>, messageId: MessageId,
                              userToken: string, authUser: Verifier): (r: Result<Message, string>)
    ensures ConvertToken(userToken, authUser).Err? ==>
              r == Err(ConvertToken(userToken, authUser).error.Message())
    ensures r.Ok? <==> ConvertToken(userToken, authUser).Ok? && messageId in messages
                       && messages[messageId].sender == ConvertToken(userToken, authUser).value
    ensures r.Ok? ==> r.value == messages[messageId]
    ensures ConvertToken(userToken, authUser).Ok? && messageId in messages && r.Err? ==>
              r.error == "Not authorized!"
    ensures ConvertToken(userToken, authUser).Ok? && messageId !in messages ==>
              r == Err(NullMessageCrash)
  {
    var userId := ConvertToken(userToken, authUser);
    if userId.Err? then Err(userId.error.Message())
    else if messageId !in messages then Err(NullMessageCrash)
    else
      var message := messages[messageId];
      if message.sender != userId.value then Err("Not authorized!")
      else Ok(message)
  }

  /** `deleteMessageAsAdmin`'s decision: the caller's id when it is an admin. */
  function AdminDeleteCheck(users: map<UserId, User>, userToken: string, authUser: Verifier)
    : (r: Result<UserId, string>)
    ensures ConvertToken(userToken, authUser).Err? ==>
              r == Err(ConvertToken(userToken, authUser).error.Message())
    ensures r.Ok? <==> ConvertToken(userToken, authUser).Ok?
                       && IsAdmin(users, ConvertToken(userToken, authUser).value)
    ensures ConvertToken(userToken, authUser).Ok? && r.Err? ==> r.error == "Not authorized!"
  {
    var userId := ConvertToken(userToken, authUser);
    if userId.Err? then Err(userId.error.Message())
    else if !IsAdmin(users, userId.value) then Err("Not authorized!")
    else Ok(userId.value)
  }

  /** What Mongoose's `required` check on an empty `content` rejects the create with. */
  const ContentRequired := "Message validation failed: content: Path `content` is required."

  class MessageResolver {
    /** Everything published on this module's pub/sub, oldest first. */
    var events: seq<MessageCreated>

    constructor ()
      ensures events == []
    {
      events := [];
    }

    /**
     * `createMessage`. The message id and both clock readings (the message's
     * date and the published created_date) are supplied by the caller. The
     * schema's `required: true` on `content` rejects an empty string, so such
     * a create stores and publishes nothing.
     */
    method CreateMessage(db: Db, chatId: ChatId, content: string, senderToken: string,
                         authUser: Verifier, newMessageId: MessageId, now: int, publishedAt: int)
      returns (r: Result<(MessageId, Message), string>)
      requires newMessageId !in db.messages
      modifies this, db
      ensures ConvertToken(senderToken, authUser).Err? ==>
                r == Err(ConvertToken(senderToken, authUser).error.Message()) && unchanged(this, db)
      ensures ConvertToken(senderToken, authUser).Ok? && chatId !in old(db.chats) ==>
                r == Err("Chat not found") && unchanged(this, db)
      ensures ConvertToken(senderToken, authUser).Ok? && chatId in old(db.chats) && content == "" ==>
                r == Err(ContentRequired) && unchanged(this, db)
      ensures ConvertToken(senderToken, authUser).Ok? && chatId in old(db.chats) && content != "" ==>
                var sender := ConvertToken(senderToken, authUser).value;
                var message := Message(now, content, sender);
                var list := old(db.chats[chatId].messages) + [newMessageId];
                && db.messages == old(db.messages)[newMessageId := message]
                && db.chats == old(db.chats)[chatId := old(db.chats[chatId]).(messages := list)]
                && events == old(events) + [MessageCreated(chatId, newMessageId, publishedAt, list, sender)]
                && r == Ok((newMessageId, message))
                && MessageById(db.messages, newMessageId) == Ok(message)
      ensures db.users == old(db.users) && db.queue == old(db.queue)
    {
      var userId := ConvertToken(senderToken, authUser);
      if userId.Err? {
        return Err(userId.error.Message());
      }
      if chatId !in db.chats {
        return Err("Chat not found");
      }
      if content == "" {
        return Err(ContentRequired);
      }
      var chat := db.chats[chatId];
      var newMessage := Message(now, content, userId.value);
      db.messages := db.messages[newMessageId := newMessage];
      chat := chat.(messages := chat.messages + [newMessageId]);
      db.chats := db.chats[chatId := chat];
      events := events + [MessageCreated(chatId, newMessageId, publishedAt, chat.messages, userId.value)];
      r := Ok((newMessageId, newMessage));
    }
  }

  /** `deleteMessage`: only the sender removes the message; the chat keeps its id. */
  method DeleteMessage(db: Db, messageId: MessageId, userToken: string, authUser: Verifier)
    returns (r: Result<Message, string>)
    modifies db
    ensures r == DeleteMessageCheck(old(db.messages), messageId, userToken, authUser)
    ensures r.Err? ==> unchanged(db)
    ensures r.Ok? ==> db.messages == old(db.messages) - {messageId}
    ensures db.users == old(db.users) && db.chats == old(db.chats) && db.queue == old(db.queue)
  {
    r := DeleteMessageCheck(db.messages, messageId, userToken, authUser);
    if r.Ok? {
      db.messages := db.messages - {messageId};
    }
  }

  /** `deleteMessageAsAdmin`: the deleted message, or none when the id was unknown. */
  method DeleteMessageAsAdmin(db: Db, messageId: MessageId, userToken: string, authUser: Verifier)
    returns (r: Result<Option<Message>, string>)
    modifies db
    ensures AdminDeleteCheck(db.users, userToken, authUser).Err? ==>
              r == Err(AdminDeleteCheck(db.users, userToken, authUser).error) && unchanged(db)
    ensures AdminDeleteCheck(db.users, userToken, authUser).Ok? ==>
              && db.messages == old(db.messages) - {messageId}
              && r == Ok(if messageId in old(db.messages) then Some(old(db.messages[messageId])) else None)
    ensures db.users == old(db.users) && db.chats == old(db.chats) && db.queue == old(db.queue)
  {
    var check := AdminDeleteCheck(db.users, userToken, authUser);
    if check.Err? {
      return Err(check.error);
    }
    var deleteMessage := if messageId in db.messages then Some(db.messages[messageId]) else None;
    db.messages := db.messages - {messageId};
    r := Ok(deleteMessage);
  }
}
