/**
 * The anonymous pairing queue. A caller either pairs with the oldest waiting
 * entry, which creates a chat, or joins the queue. A module-level counter
 * caches the number of waiting entries. Positions are rewritten when someone
 * leaves, and every event is published on the module's own pub/sub, which is
 * modelled as an append-only log.
 */
module QueueResolver {
  import opened Wrappers
  import opened Records
  import opened Auth

  // ---------------------------------------------------------------------------
  // Topics and events

  const ChatStartedTopic := "CHAT_STARTED"
  const PositionTopicPrefix := "QUEUE_POSITION_"
  const UserJoinedQueueTopic := "USER_JOINED_QUEUE"
  const UserLeftQueueTopic := "USER_LEFT_QUEUE"

  /** The topic `dequeueUser` publishes a user's position updates on. */
  function PositionTopic(userId: UserId): (r: string)
    ensures |r| == |PositionTopicPrefix| + |userId|
    ensures r[..|PositionTopicPrefix|] == PositionTopicPrefix
    ensures r[|PositionTopicPrefix|..] == userId
  {
    PositionTopicPrefix + userId
  }

  datatype QueueEvent =
    | ChatStarted(chatId: ChatId, chat: Chat)
    | PositionUpdated(userId: UserId, position: int)
  {
    function Topic(): string
    {
      match this
      case ChatStarted(_, _) => ChatStartedTopic
      case PositionUpdated(userId, _) => PositionTopic(userId)
    }
  }

  /**
   * The events published on a user's position topic are exactly that user's
   * position updates: the topic names the user exactly, and no chat event
   * shares it.
   */
  lemma PositionTopicExact(e: QueueEvent, userId: UserId)
    ensures e.Topic() == PositionTopic(userId) <==> e.PositionUpdated? && e.userId == userId
  {
  }

  /**
   * The topic `queuePositionUpdated` listens on. Its `subscribe` builds the
   * topic from its first parameter, which GraphQL fills with the root value;
   * the server gives no root value, so the parameter is `undefined` and the
   * template literal spells it out.
   */
  const SubscribedPositionTopic := PositionTopicPrefix + "undefined"

  /**
   * The position subscription hears only the updates of a user whose id is the
   * literal string "undefined", which no ObjectId is.
   */
  lemma PositionSubscriptionHearsOnlyUndefined(e: QueueEvent)
    ensures e.Topic() == SubscribedPositionTopic <==> e.PositionUpdated? && e.userId == "undefined"
  {
  }

  /** Nothing is ever published on the two admin topics that can be subscribed to. */
  lemma UnusedTopicsStaySilent(e: QueueEvent)
    ensures e.Topic() != UserJoinedQueueTopic && e.Topic() != UserLeftQueueTopic
  {
    if e.PositionUpdated? {
      assert e.Topic()[0] == 'Q';
    }
  }

  // ---------------------------------------------------------------------------
  // Responses and errors

  /** The shape every queue mutation answers with; `position` and `chatId` are optional. */
  datatype QueueResponse = QueueResponse(status: string, position: Option<int>, chatId: Option<ChatId>)

  function Paired(chatId: ChatId): QueueResponse
  {
    QueueResponse("Paired", None, Some(chatId))
  }

  function InQueue(position: int): QueueResponse
  {
    QueueResponse("Queue", Some(position), None)
  }

  function LeftQueue(position: int): QueueResponse
  {
    QueueResponse("User left from queue", Some(position), None)
  }

  /** The GraphQL errors the queue resolver throws. */
  datatype QueueFailure = NotAuthorized | AlreadyInQueue | NotInQueue | NotFound
  {
    function Message(): string
    {
      match this
      case NotAuthorized => "Not authorized"
      case AlreadyInQueue => "User is already in the queue"
      case NotInQueue => "User is not in the queue"
      case NotFound => "User is not in the queue"
    }

    function Code(): Option<string>
    {
      match this
      case NotAuthorized => Some("NOT_AUTHORIZED")
      case AlreadyInQueue => Some("ALREADY_IN_QUEUE")
      case NotInQueue => None
      case NotFound => Some("NOT_FOUND")
    }
  }

  datatype ResolvedType = PairedChatResponse | QueuePositionResponse | InvalidResponseType

  /** `ChatOrQueueResponse.__resolveType`: a chat id wins over a position. */
  function ResolveType(obj: QueueResponse): (t: ResolvedType)
    ensures t == PairedChatResponse <==> obj.chatId.Some?
    ensures t == QueuePositionResponse <==> obj.chatId.None? && obj.position.Some?
    ensures t == InvalidResponseType <==> obj.chatId.None? && obj.position.None?
  {
    if obj.chatId.Some? then PairedChatResponse
    else if obj.position.Some? then QueuePositionResponse
    else InvalidResponseType
  }

  // ---------------------------------------------------------------------------
  // Reads

  datatype UserRef = UserRef(id: UserId)

  /** The entry as the `queue` query shows it: the user id wrapped as a user reference. */
  datatype QueueEntryView = QueueEntryView(id: EntryId, userId: UserRef, joinedAt: int, position: int)

  function TransformQueueEntry(e: QueueEntry): (v: QueueEntryView)
    ensures EntryOfView(v) == e
  {
    QueueEntryView(e.id, UserRef(e.userId), e.joinedAt, e.position)
  }

  function EntryOfView(v: QueueEntryView): QueueEntry
  {
    QueueEntry(v.id, v.userId.id, v.joinedAt, v.position)
  }

  /** `transformQueueEntry` loses nothing: the entry can be read back from its view. */
  lemma TransformQueueEntryRoundTrip(e: QueueEntry, v: QueueEntryView)
    ensures EntryOfView(TransformQueueEntry(e)) == e
    ensures TransformQueueEntry(EntryOfView(v)) == v
  {
  }

  /** `Query.queue`: every stored entry, transformed, in store order. */
  function Queue(q: seq<QueueEntry>): (r: seq<QueueEntryView>)
    ensures |r| == |q|
    ensures forall i :: 0 <= i < |q| ==> EntryOfView(r[i]) == q[i]
  {
    seq(|q|, i requires 0 <= i < |q| => TransformQueueEntry(q[i]))
  }

  /** `Query.queuePosition`: the stored position of the caller's entry. */
  function QueuePosition(q: seq<QueueEntry>, token: string, authUser: Verifier)
    : (r: Result<QueueResponse, QueueFailure>)
    ensures r.Err? <==> forall i :: 0 <= i < |q| ==> Some(q[i].userId) != authUser(token)
    ensures r.Err? ==> r.error == NotInQueue
    ensures r.Ok? ==> exists i :: 0 <= i < |q| && Some(q[i].userId) == authUser(token)
                                && r.value == InQueue(q[i].position)
  {
    match FindByUser(q, authUser(token))
    case None => Err(NotInQueue)
    case Some(k) => Ok(InQueue(q[k].position))
  }

  // ---------------------------------------------------------------------------
  // Counter arithmetic and dequeue bookkeeping

  /** `--globalQueueCounter`: JavaScript turns a null counter into 0 first, giving -1. */
  function Decremented(counter: Option<int>): int
  {
    match counter
    case None => -1
    case Some(c) => c - 1
  }

  /** The forEach in `dequeueUser`: entry `i` gets position `i + 1`, nothing else changes. */
  method RenumberPositions(entries: seq<QueueEntry>) returns (r: seq<QueueEntry>)
    ensures |r| == |entries|
    ensures forall i :: 0 <= i < |r| ==> r[i] == entries[i].(position := i + 1)
  {
    r := entries;
    var i := 0;
    while i < |r|
      invariant 0 <= i <= |r| == |entries|
      invariant forall j :: 0 <= j < i ==> r[j] == entries[j].(position := j + 1)
      invariant forall j :: i <= j < |r| ==> r[j] == entries[j]
    {
      r := r[i := r[i].(position := i + 1)];
      i := i + 1;
    }
  }

  /** `find({position: {$gt: p}})`: the entries behind position `p`, in store order. */
  function UsersToUpdate(q: seq<QueueEntry>, p: int): (r: seq<QueueEntry>)
    ensures |r| <= |q|
  {
    if q == [] then []
    else if q[0].position > p then [q[0]] + UsersToUpdate(q[1..], p)
    else UsersToUpdate(q[1..], p)
  }

  /** The entries behind `p` are exactly the stored entries positioned after `p`. */
  lemma {:induction false} UsersToUpdateMembers(q: seq<QueueEntry>, p: int)
    ensures forall e :: e in UsersToUpdate(q, p) <==> e in q && e.position > p
  {
    if q != [] {
      UsersToUpdateMembers(q[1..], p);
      assert q == [q[0]] + q[1..];
    }
  }

  /** The entries behind `p` come in store order, none repeated. */
  lemma {:induction false} UsersToUpdateInOrder(q: seq<QueueEntry>, p: int)
    ensures Subsequence(UsersToUpdate(q, p), q)
  {
    if q != [] {
      UsersToUpdateInOrder(q[1..], p);
    }
  }

  /** What the publishing forEach sends: each entry's position minus one, to that user. */
  function PositionEvents(usersToUpdate: seq<QueueEntry>): (r: seq<QueueEvent>)
    ensures |r| == |usersToUpdate|
    ensures forall i :: 0 <= i < |r| ==>
      r[i] == PositionUpdated(usersToUpdate[i].userId, usersToUpdate[i].position - 1)
  {
    seq(|usersToUpdate|, i requires 0 <= i < |usersToUpdate| =>
      PositionUpdated(usersToUpdate[i].userId, usersToUpdate[i].position - 1))
  }

  /** Every position update after a dequeue goes to a user who is still queued. */
  lemma PositionEventsTargetQueued(q: seq<QueueEntry>, p: int, e: QueueEvent)
    requires e in PositionEvents(UsersToUpdate(q, p))
    ensures e.PositionUpdated?
    ensures exists i :: 0 <= i < |q| && q[i].userId == e.userId
                      && q[i].position > p && e.position == q[i].position - 1
  {
  }

  /**
   * On entries numbered `base`, `base + 1`, ..., the entries behind `p` are a
   * suffix: the first `p - base + 1` of them (at most all) are dropped.
   */
  lemma {:induction false} UsersToUpdateOfNumbered(q: seq<QueueEntry>, base: int, p: int)
    requires forall i :: 0 <= i < |q| ==> q[i].position == base + i
    ensures var d := if p - base + 1 < 0 then 0 else if p - base + 1 > |q| then |q| else p - base + 1;
            UsersToUpdate(q, p) == q[d..]
  {
    if q != [] {
      UsersToUpdateOfNumbered(q[1..], base + 1, p);
      if q[0].position > p {
        assert UsersToUpdate(q[1..], p) == q[1..];
        assert [q[0]] + q[1..] == q;
      }
    }
  }

  /**
   * After a dequeue the remaining entries are numbered 1..n. When the removed
   * entry's stored position `k + 1` matched its index `k`, the entry that moved
   * up to index `k` is not notified, and the entry now at each later index `j`
   * is told position `j`, one less than the `j + 1` it now holds.
   */
  lemma DequeueNotifiesFromSecondFollower(q: seq<QueueEntry>, k: nat)
    requires forall i :: 0 <= i < |q| ==> q[i].position == i + 1
    requires k <= |q|
    ensures var evs := PositionEvents(UsersToUpdate(q, k + 1));
            |evs| == (if k < |q| then |q| - k - 1 else 0) &&
            forall j :: 0 <= j < |evs| ==>
              evs[j] == PositionUpdated(q[k + 1 + j].userId, k + 1 + j)
  {
    UsersToUpdateOfNumbered(q, 1, k + 1);
    if k < |q| {
      assert UsersToUpdate(q, k + 1) == q[k + 1..];
      PositionEventsOfSuffix(q, k + 1);
    } else {
      assert UsersToUpdate(q, k + 1) == [];
    }
  }

  /** The updates for the entries of a queue numbered 1..n from index `d` on. */
  lemma PositionEventsOfSuffix(q: seq<QueueEntry>, d: nat)
    requires forall i :: 0 <= i < |q| ==> q[i].position == i + 1
    requires d <= |q|
    ensures var evs := PositionEvents(q[d..]);
            |evs| == |q| - d &&
            forall j :: 0 <= j < |evs| ==> evs[j] == PositionUpdated(q[d + j].userId, d + j)
  {
  }

  /**
   * Removing entry `k` and renumbering the rest keeps the queue valid, and no
   * remaining entry belongs to the removed entry's user.
   */
  lemma RenumberedRemovalValid(q: seq<QueueEntry>, k: nat, r: seq<QueueEntry>)
    requires QueueValid(q) && k < |q|
    requires |r| == |q| - 1
    requires forall i :: 0 <= i < |r| ==> r[i] == RemoveAt(q, k)[i].(position := i + 1)
    ensures QueueValid(r)
    ensures forall j :: 0 <= j < |r| ==> r[j].userId != q[k].userId
  {
  }

  // ---------------------------------------------------------------------------
  // The resolver state and its mutations

  class QueueResolver {
    /** `globalQueueCounter`: null until first read, then a cached count of the entries. */
    var counter: Option<int>
    /** Everything published on this module's pub/sub, oldest first. */
    var events: seq<QueueEvent>

    constructor ()
      ensures counter == None && events == []
    {
      counter := None;
      events := [];
    }

    /**
     * At most one entry waits, since a second caller pairs with it instead of
     * joining; and the counter agrees with the store, or is still
     * uninitialised over an empty queue.
     */
    ghost predicate Synced(db: Db)
      reads this, db
    {
      |db.queue| <= 1 &&
      (counter == Some(|db.queue|) || (counter.None? && db.queue == []))
    }

    /** `getGlobalQueueCounter`: initialise the counter from the store on first use. */
    method GetGlobalQueueCounter(db: Db) returns (c: int)
      modifies this`counter
      ensures c == (if old(counter).None? then |db.queue| else old(counter).value)
      ensures counter == Some(c)
    {
      if counter.None? {
        counter := Some(|db.queue|);
      }
      c := counter.value;
    }

    /**
     * `initiateChat`. The new chat's id, the new entry's id and the clock are
     * supplied by the caller. The chat is created with no users: neither
     * participant is recorded in it.
     */
    method InitiateChat(db: Db, token: string, authUser: Verifier,
                        newChatId: ChatId, newEntryId: EntryId, now: int)
      returns (r: Result<QueueResponse, QueueFailure>)
      requires db.Valid()
      requires newChatId !in db.chats
      modifies this, db
      ensures db.Valid()
      ensures db.users == old(db.users) && db.messages == old(db.messages)
      ensures !Resolved(authUser(token)) ==>
                r == Err(NotAuthorized) && unchanged(this, db)
      ensures Resolved(authUser(token)) && FindByUser(old(db.queue), authUser(token)).Some? ==>
                r == Err(AlreadyInQueue) && unchanged(this, db)
      // Pairing: the oldest entry is consumed and the caller is not added.
      ensures Resolved(authUser(token)) && FindByUser(old(db.queue), authUser(token)).None?
              && old(db.queue) != [] ==>
                && (forall i :: 0 <= i < |old(db.queue)| ==>
                      old(db.queue)[0].joinedAt <= old(db.queue)[i].joinedAt)
                && db.queue == old(db.queue)[1..]
                && db.chats == old(db.chats)[newChatId := Chat(now, [], [])]
                && counter == Some(Decremented(old(counter)))
                && events == old(events) + [ChatStarted(newChatId, Chat(now, [], []))]
                && r == Ok(Paired(newChatId))
      // Enqueueing: at the lazily initialised counter plus one.
      ensures Resolved(authUser(token)) && old(db.queue) == [] ==>
                var p := (if old(counter).None? then 0 else old(counter).value) + 1;
                && db.queue == [QueueEntry(newEntryId, authUser(token).value, now, p)]
                && counter == Some(p)
                && db.chats == old(db.chats) && events == old(events)
                && r == Ok(InQueue(p))
                && QueuePosition(db.queue, token, authUser) == Ok(InQueue(p))
      ensures r.Ok? ==> ResolveType(r.value) != InvalidResponseType
      ensures |old(db.queue)| <= 1 ==> |db.queue| <= 1
      ensures old(counter) == Some(|old(db.queue)|) ==> counter == Some(|db.queue|)
      ensures old(Synced(db)) ==> Synced(db)
      ensures old(Synced(db)) && r.Ok? && r.value.chatId.None? ==> r.value == InQueue(1)
    {
      var userId := authUser(token);
      if !Resolved(userId) {
        return Err(NotAuthorized);
      }
      var userInQueue := FindByUser(db.queue, userId);
      if userInQueue.Some? {
        return Err(AlreadyInQueue);
      }
      if |db.queue| > 0 {
        var firstInQueue := db.queue[0];
        var newChat := Chat(now, [], []);
        db.chats := db.chats[newChatId := newChat];
        var k := FindById(db.queue, firstInQueue.id);
        assert k == Some(0);
        db.queue := RemoveAt(db.queue, k.value);
        RemoveAtValid(old(db.queue), 0);
        counter := Some(Decremented(counter));
        events := events + [ChatStarted(newChatId, newChat)];
        r := Ok(Paired(newChatId));
      } else {
        var c := GetGlobalQueueCounter(db);
        var currentPosition := c + 1;
        counter := Some(counter.value + 1);
        db.queue := db.queue + [QueueEntry(newEntryId, userId.value, now, currentPosition)];
        r := Ok(InQueue(currentPosition));
      }
    }

    /** The forEach that publishes one position update per entry to update. */
    method PublishPositionUpdates(usersToUpdate: seq<QueueEntry>)
      modifies this`events
      ensures events == old(events) + PositionEvents(usersToUpdate)
    {
      var i := 0;
      while i < |usersToUpdate|
        invariant 0 <= i <= |usersToUpdate|
        invariant events == old(events) + PositionEvents(usersToUpdate[..i])
      {
        var user := usersToUpdate[i];
        events := events + [PositionUpdated(user.userId, user.position - 1)];
        assert usersToUpdate[..i + 1] == usersToUpdate[..i] + [user];
        i := i + 1;
      }
      assert usersToUpdate[..i] == usersToUpdate;
    }

    /**
     * `dequeueUser`: remove the caller's entry, number the rest 1..n in
     * joinedAt order, and notify the entries behind the removed position.
     */
    method DequeueUser(db: Db, token: string, authUser: Verifier)
      returns (r: Result<QueueResponse, QueueFailure>)
      requires db.Valid()
      modifies this, db
      ensures db.Valid()
      ensures db.users == old(db.users) && db.chats == old(db.chats)
      ensures db.messages == old(db.messages)
      ensures FindByUser(old(db.queue), authUser(token)).None? ==>
                r == Err(NotFound) && unchanged(this, db)
      ensures FindByUser(old(db.queue), authUser(token)).Some? ==>
                var k := FindByUser(old(db.queue), authUser(token)).value;
                var rest := RemoveAt(old(db.queue), k);
                && |db.queue| == |rest|
                && (forall i :: 0 <= i < |rest| ==> db.queue[i] == rest[i].(position := i + 1))
                && counter == Some(Decremented(old(counter)))
                && events == old(events)
                             + PositionEvents(UsersToUpdate(db.queue, old(db.queue)[k].position))
                && r == Ok(LeftQueue(|db.queue|))
      ensures FindByUser(db.queue, authUser(token)).None?
      ensures |db.queue| <= |old(db.queue)|
      ensures old(counter) == Some(|old(db.queue)|) ==> counter == Some(|db.queue|)
      ensures old(Synced(db)) ==> Synced(db)
    {
      var userId := authUser(token);
      var found := FindByUser(db.queue, userId);
      if found.None? {
        return Err(NotFound);
      }
      var userInQueue := db.queue[found.value];
      var rest := RemoveAt(db.queue, found.value);
      var queueEntries := RenumberPositions(rest);
      RenumberedRemovalValid(db.queue, found.value, queueEntries);
      db.queue := queueEntries;
      var newPosition := |db.queue|;
      counter := Some(Decremented(counter));
      var usersToUpdate := UsersToUpdate(db.queue, userInQueue.position);
      PublishPositionUpdates(usersToUpdate);
      r := Ok(LeftQueue(newPosition));
    }
  }
}
