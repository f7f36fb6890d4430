/**
 * Chat bookkeeping: pruning message ids that no longer resolve, joining a
 * chat, creating one, and the admin-only delete.
 */
module ChatResolver {
  import opened Wrappers
  import opened Records
  import opened Auth

  // ---------------------------------------------------------------------------
  // Chat.messages

  /** `find({_id: {$in: ids}})`: the stored messages whose id is listed. */
  function FoundMessages(ids: seq<MessageId>, store: map<MessageId, Message>)
    : (r: map<MessageId, Message>)
    ensures forall id :: id in r <==> id in ids && id in store
    ensures forall id :: id in r ==> r[id] == store[id]
  {
    map id | id in store && id in ids :: store[id]
  }

  /** `missingIds`: the listed ids not among those found, in list order. */
  function MissingIds(ids: seq<MessageId>, found: map<MessageId, Message>): (r: seq<MessageId>)
    ensures forall id :: id in r <==> id in ids && id !in found
    ensures |r| <= |ids|
  {
    if ids == [] then []
    else if ids[0] !in found then [ids[0]] + MissingIds(ids[1..], found)
    else MissingIds(ids[1..], found)
  }

  /** The missing ids come in list order, none repeated beyond the list's own repeats. */
  lemma {:induction false} MissingIdsInOrder(ids: seq<MessageId>, found: map<MessageId, Message>)
    ensures Subsequence(MissingIds(ids, found), ids)
  {
    if ids != [] {
      MissingIdsInOrder(ids[1..], found);
    }
  }

  /** Mongo's `$pullAll`: drop every occurrence of the given values. */
  function PullAll(list: seq<MessageId>, values: seq<MessageId>): (r: seq<MessageId>)
    ensures forall id :: id in r <==> id in list && id !in values
    ensures |r| <= |list|
  {
    if list == [] then []
    else if list[0] in values then PullAll(list[1..], values)
    else [list[0]] + PullAll(list[1..], values)
  }

  /** What `$pullAll` keeps stays in list order. */
  lemma {:induction false} PullAllInOrder(list: seq<MessageId>, values: seq<MessageId>)
    ensures Subsequence(PullAll(list, values), list)
  {
    if list != [] {
      PullAllInOrder(list[1..], values);
    }
  }

  /** The reference definition: the listed ids that resolve, in their original order. */
  function KeepPresent(ids: seq<MessageId>, store: map<MessageId, Message>): seq<MessageId>
  {
    if ids == [] then []
    else if ids[0] in store then [ids[0]] + KeepPresent(ids[1..], store)
    else KeepPresent(ids[1..], store)
  }

  lemma {:induction false} KeepPresentMembers(ids: seq<MessageId>, store: map<MessageId, Message>)
    ensures forall id :: id in KeepPresent(ids, store) <==> id in ids && id in store
  {
    if ids != [] {
      KeepPresentMembers(ids[1..], store);
      assert ids == [ids[0]] + ids[1..];
    }
  }

  /** When every listed id resolves, the list is kept as it is. */
  lemma {:induction false} KeepPresentAllPresent(ids: seq<MessageId>, store: map<MessageId, Message>)
    requires forall i :: 0 <= i < |ids| ==> ids[i] in store
    ensures KeepPresent(ids, store) == ids
  {
    if ids != [] {
      KeepPresentAllPresent(ids[1..], store);
    }
  }

  lemma {:induction false} PullAllAgrees(list: seq<MessageId>, values: seq<MessageId>,
                                         store: map<MessageId, Message>)
    requires forall i :: 0 <= i < |list| ==> (list[i] in values <==> list[i] !in store)
    ensures PullAll(list, values) == KeepPresent(list, store)
  {
    if list != [] {
      PullAllAgrees(list[1..], values, store);
    }
  }

  /**
   * Pulling the missing ids removes exactly the ids absent from the store and
   * keeps the survivors in their relative order.
   */
  lemma PruneKeepsPresent(ids: seq<MessageId>, store: map<MessageId, Message>)
    ensures PullAll(ids, MissingIds(ids, FoundMessages(ids, store))) == KeepPresent(ids, store)
  {
    var missing := MissingIds(ids, FoundMessages(ids, store));
    assert forall i :: 0 <= i < |ids| ==> (ids[i] in missing <==> ids[i] !in store);
    PullAllAgrees(ids, missing, store);
  }

  /**
   * `Chat.messages` for the chat stored under `parentId`: returns the messages
   * that exist and pulls the ids that do not from the stored chat.
   */
  method ChatMessages(db: Db, parentId: ChatId) returns (found: map<MessageId, Message>)
    requires parentId in db.chats
    modifies db
    ensures db.users == old(db.users) && db.messages == old(db.messages)
    ensures db.queue == old(db.queue)
    ensures old(db.chats[parentId].messages) == [] ==> found == map[] && unchanged(db)
    ensures found == FoundMessages(old(db.chats[parentId].messages), db.messages)
    ensures forall id :: id in found ==> id in db.messages && found[id] == db.messages[id]
    ensures db.chats == old(db.chats)[parentId := old(db.chats[parentId]).(
              messages := KeepPresent(old(db.chats[parentId].messages), db.messages))]
    ensures (forall i :: 0 <= i < |old(db.chats[parentId].messages)| ==>
               old(db.chats[parentId].messages)[i] in db.messages) ==> unchanged(db)
  {
    var parent := db.chats[parentId];
    if |parent.messages| < 1 {
      assert db.chats[parentId := parent] == db.chats;
      return map[];
    }
    var response := FoundMessages(parent.messages, db.messages);
    var missingIds := MissingIds(parent.messages, response);
    PruneKeepsPresent(parent.messages, db.messages);
    if |missingIds| > 0 {
      assert missingIds[0] in parent.messages && missingIds[0] !in db.messages;
      db.chats := db.chats[parentId := parent.(messages := PullAll(parent.messages, missingIds))];
    } else {
      assert forall i :: 0 <= i < |parent.messages| ==> parent.messages[i] in db.messages;
      KeepPresentAllPresent(parent.messages, db.messages);
      assert parent.(messages := KeepPresent(parent.messages, db.messages)) == parent;
      assert db.chats[parentId := parent] == db.chats;
    }
    found := response;
  }

  // ---------------------------------------------------------------------------
  // joinChat

  /** `findById(userId)`; an Error object passed as the id matches no user. */
  function LookupUser(users: map<UserId, User>, userId: Result<UserId, TokenError>): Option<User>
  {
    if userId.Ok? && userId.value in users then Some(users[userId.value]) else None
  }

  /** `findOne({users: {$all: [userId, chatId]}})`: a chat listing both ids among its users. */
  predicate ChatWithUser(chats: map<ChatId, Chat>, userId: UserId, chatId: ChatId)
    ensures ChatIdsNotUsers(chats) && chatId in chats ==> !ChatWithUser(chats, userId, chatId)
  {
    exists c :: c in chats && userId in chats[c].users && chatId in chats[c].users
  }

  /** No chat lists a chat id among its users. */
  predicate ChatIdsNotUsers(chats: map<ChatId, Chat>)
  {
    forall c, d :: c in chats && d in chats ==> d !in chats[c].users
  }

  /** The outcome of `joinChat` on the given store, as a value. */
  function JoinChatOutcome(chats: map<ChatId, Chat>, users: map<UserId, User>, chatId: ChatId,
                           userToken: string, authUser: Verifier): (r: Result<Chat, string>)
    ensures var u := ConvertToken(userToken, authUser);
            r.Ok? <==> chatId in chats && u.Ok? && u.value in users
                       && !ChatWithUser(chats, u.value, chatId)
    ensures r.Ok? ==> var u := ConvertToken(userToken, authUser);
                      u.Ok? && r.value == chats[chatId].(users := chats[chatId].users + [u.value])
  {
    if chatId !in chats then Err("Chat not found")
    else
      var chat := chats[chatId];
      var userId := ConvertToken(userToken, authUser);
      if !Truthy(userId) then Err("Not authorized")
      else if LookupUser(users, userId).None? then Err("User not found")
      else if ChatWithUser(chats, userId.value, chatId) then Err("User already in chat")
      else Ok(chat.(users := chat.users + [userId.value]))
  }

  /**
   * The error ladder of `joinChat`: an unknown chat first; then a token that
   * does not convert, which reaches the user lookup as an Error object and
   * so reads as a missing user, as does a converted id that is not stored;
   * then a chat listing both the user and the chat id. 'Not authorized' is
   * never the answer.
   */
  lemma JoinChatErrors(chats: map<ChatId, Chat>, users: map<UserId, User>, chatId: ChatId,
                       userToken: string, authUser: Verifier)
    ensures var r := JoinChatOutcome(chats, users, chatId, userToken, authUser);
            && (chatId !in chats <==> r == Err("Chat not found"))
            && (chatId in chats && ConvertToken(userToken, authUser).Err? ==> r == Err("User not found"))
            && (r == Err("User not found") <==>
                  chatId in chats && !(ConvertToken(userToken, authUser).Ok?
                                       && ConvertToken(userToken, authUser).value in users))
            && (r == Err("User already in chat") <==>
                  chatId in chats && ConvertToken(userToken, authUser).Ok?
                  && ConvertToken(userToken, authUser).value in users
                  && ChatWithUser(chats, ConvertToken(userToken, authUser).value, chatId))
            && r != Err("Not authorized")
  {
  }

  /**
   * The duplicate check asks for a chat listing the chat id among its users;
   * when no chat does, a user already in the chat is appended again.
   */
  lemma JoinChatNeverDuplicateChecked(chats: map<ChatId, Chat>, users: map<UserId, User>,
                                      chatId: ChatId, userToken: string, authUser: Verifier)
    requires ChatIdsNotUsers(chats)
    requires chatId in chats
    requires ConvertToken(userToken, authUser).Ok?
    requires ConvertToken(userToken, authUser).value in users
    ensures var u := ConvertToken(userToken, authUser).value;
            JoinChatOutcome(chats, users, chatId, userToken, authUser)
              == Ok(chats[chatId].(users := chats[chatId].users + [u]))
  {
  }

  /** `joinChat`: push the user onto the chat's list and save it. */
  method JoinChat(db: Db, chatId: ChatId, userToken: string, authUser: Verifier)
    returns (r: Result<Chat, string>)
    modifies db
    ensures r == JoinChatOutcome(old(db.chats), db.users, chatId, userToken, authUser)
    ensures r.Err? ==> unchanged(db)
    ensures r.Ok? ==> db.chats == old(db.chats)[chatId := r.value]
    ensures r.Ok? ==> |r.value.users| == |old(db.chats[chatId].users)| + 1
                      && r.value.users[..|r.value.users| - 1] == old(db.chats[chatId].users)
    ensures db.users == old(db.users) && db.messages == old(db.messages)
    ensures db.queue == old(db.queue)
  {
    r := JoinChatOutcome(db.chats, db.users, chatId, userToken, authUser);
    if r.Ok? {
      db.chats := db.chats[chatId := r.value];
      assert r.value.users[..|r.value.users| - 1] == old(db.chats[chatId].users);
    }
  }

  // ---------------------------------------------------------------------------
  // createChat and deleteChatAsAdmin

  /** `createChat`: a new chat with the given users and no messages. */
  method CreateChat(db: Db, users: seq<UserId>, newChatId: ChatId, now: int)
    returns (r: Chat)
    requires newChatId !in db.chats
    modifies db
    ensures r == Chat(now, users, [])
    ensures db.chats == old(db.chats)[newChatId := r]
    ensures db.users == old(db.users) && db.messages == old(db.messages)
    ensures db.queue == old(db.queue)
  {
    r := Chat(now, users, []);
    db.chats := db.chats[newChatId := r];
  }

  datatype AdminFailure = NoTokenGiven | FailedToConvert | NotAdmin
  {
    function Message(): string
    {
      match this
      case NoTokenGiven => "No token"
      case FailedToConvert => "Token conversion failed"
      case NotAdmin => "Not authorized"
    }

    function Code(): string
    {
      match this
      case NoTokenGiven => "NO_TOKEN"
      case FailedToConvert => "FAILED_TO_CONVERT"
      case NotAdmin => "NOT_AUTHORIZED"
    }
  }

  /** The checks of `deleteChatAsAdmin`, in order; the admin's id when all pass. */
  function AdminCheck(userToken: string, authUser: Verifier, users: map<UserId, User>)
    : (r: Result<UserId, AdminFailure>)
    ensures r == Err(NoTokenGiven) <==> userToken == ""
    ensures r == Err(FailedToConvert) <==> userToken != "" && !Resolved(authUser(userToken))
    ensures r == Err(NotAdmin) <==>
              userToken != "" && Resolved(authUser(userToken))
              && !IsAdmin(users, authUser(userToken).value)
    ensures r.Ok? <==> userToken != "" && Resolved(authUser(userToken))
                       && IsAdmin(users, authUser(userToken).value)
    ensures r.Ok? ==> Some(r.value) == authUser(userToken)
  {
    if userToken == "" then Err(NoTokenGiven)
    else
      var userId := authUser(userToken);
      if !Resolved(userId) then Err(FailedToConvert)
      else if !IsAdmin(users, userId.value) then Err(NotAdmin)
      else Ok(userId.value)
  }

  /** `deleteChatAsAdmin`: the deleted chat, or none when the id was unknown. */
  method DeleteChatAsAdmin(db: Db, chatId: ChatId, userToken: string, authUser: Verifier)
    returns (r: Result<Option<Chat>, AdminFailure>)
    modifies db
    ensures AdminCheck(userToken, authUser, db.users).Err? ==>
              r == Err(AdminCheck(userToken, authUser, db.users).error) && unchanged(db)
    ensures AdminCheck(userToken, authUser, db.users).Ok? ==>
              && db.chats == old(db.chats) - {chatId}
              && r == Ok(if chatId in old(db.chats) then Some(old(db.chats[chatId])) else None)
    ensures db.users == old(db.users) && db.messages == old(db.messages)
    ensures db.queue == old(db.queue)
  {
    var check := AdminCheck(userToken, authUser, db.users);
    if check.Err? {
      return Err(check.error);
    }
    var deleteChat := if chatId in db.chats then Some(db.chats[chatId]) else None;
    db.chats := db.chats - {chatId};
    r := Ok(deleteChat);
  }
}
