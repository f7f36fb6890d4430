/**
 * Verified scenarios on small concrete databases, and facts that relate
 * one resolver's writes to another's reads. Only the resolvers' contracts are
 * used.
 */
module Scenarios {
  import opened Wrappers
  import opened Records
  import opened QueueResolver
  import opened ChatResolver

  /** A verifier that knows three tokens. */
  function DemoAuth(token: string): Option<UserId>
  {
    if token == "alice-token" then Some("alice")
    else if token == "bob-token" then Some("bob")
    else if token == "carol-token" then Some("carol")
    else None
  }

  /**
   * Alice joins an empty queue at position 1; Bob then pairs with her. The
   * chat-started event carries a chat with no users.
   */
  method AliceThenBob() returns (alice: Result<QueueResponse, QueueFailure>,
                                 bob: Result<QueueResponse, QueueFailure>,
                                 published: seq<QueueEvent>)
    ensures alice == Ok(InQueue(1))
    ensures bob == Ok(Paired("chat-1"))
    ensures published == [ChatStarted("chat-1", Chat(2, [], []))]
  {
    var db := new Db(map[], map[], map[], []);
    var queue := new QueueResolver();
    alice := queue.InitiateChat(db, "alice-token", DemoAuth, "chat-0", "entry-1", 1);
    bob := queue.InitiateChat(db, "bob-token", DemoAuth, "chat-1", "entry-2", 2);
    published := queue.events;
  }

  /**
   * After a restart the counter is null while the store still holds Alice.
   * Bob pairs with her and the decrement turns null into -1, so Carol, who
   * then joins an empty queue, is told position 0.
   */
  method PairingBeforeCounterInit() returns (bob: Result<QueueResponse, QueueFailure>,
                                             carol: Result<QueueResponse, QueueFailure>)
    ensures bob == Ok(Paired("chat-1"))
    ensures carol == Ok(InQueue(0))
  {
    var db := new Db(map[], map[], map[], [QueueEntry("entry-0", "alice", 0, 1)]);
    var queue := new QueueResolver();
    bob := queue.InitiateChat(db, "bob-token", DemoAuth, "chat-1", "entry-1", 1);
    carol := queue.InitiateChat(db, "carol-token", DemoAuth, "chat-2", "entry-2", 2);
  }

  /** Alice, Bob and Carol waiting, in that order, at positions 1, 2 and 3. */
  function ThreeWaiting(): (q: seq<QueueEntry>)
    ensures QueueValid(q)
    ensures FindByUser(q, DemoAuth("alice-token")) == Some(0)
    ensures RemoveAt(q, 0) == [QueueEntry("entry-b", "bob", 1, 2), QueueEntry("entry-c", "carol", 2, 3)]
  {
    [QueueEntry("entry-a", "alice", 0, 1), QueueEntry("entry-b", "bob", 1, 2),
     QueueEntry("entry-c", "carol", 2, 3)]
  }

  /**
   * Alice, Bob and Carol wait at positions 1, 2 and 3 and Alice leaves. Bob
   * now holds position 1 but is not notified; Carol is told 1 while she
   * holds 2.
   */
  method FirstOfThreeLeaves() returns (left: Result<QueueResponse, QueueFailure>,
                                       bobPosition: Result<QueueResponse, QueueFailure>,
                                       published: seq<QueueEvent>)
    ensures left == Ok(LeftQueue(2))
    ensures bobPosition == Ok(InQueue(1))
    ensures published == [PositionUpdated("carol", 1)]
  {
    var entries := ThreeWaiting();
    var db := new Db(map[], map[], map[], entries);
    var queue := new QueueResolver();
    left := queue.DequeueUser(db, "alice-token", DemoAuth);
    var bob := QueueEntry("entry-b", "bob", 1, 1);
    var carol := QueueEntry("entry-c", "carol", 2, 2);
    assert db.queue == [bob, carol] by {
      assert db.queue[0] == bob && db.queue[1] == carol;
    }
    assert UsersToUpdate(db.queue, 1) == [carol] by {
      assert UsersToUpdate([carol], 1) == [carol];
    }
    published := queue.events;
    bobPosition := QueuePosition(db.queue, "bob-token", DemoAuth);
  }

  /** Leaving twice: the first dequeue succeeds and the second finds nothing. */
  method DequeueTwice() returns (first: Result<QueueResponse, QueueFailure>,
                                 second: Result<QueueResponse, QueueFailure>)
    ensures first == Ok(LeftQueue(0))
    ensures second == Err(NotFound)
  {
    var db := new Db(map[], map[], map[], [QueueEntry("entry-a", "alice", 0, 1)]);
    var queue := new QueueResolver();
    first := queue.DequeueUser(db, "alice-token", DemoAuth);
    second := queue.DequeueUser(db, "alice-token", DemoAuth);
  }

  /** The next `Chat.messages` on a chat drops the id of a message deleted since. */
  lemma DeletedMessageIsPruned(ids: seq<MessageId>, store: map<MessageId, Message>,
                               messageId: MessageId)
    requires messageId in ids
    ensures messageId !in KeepPresent(ids, store - {messageId})
    ensures forall id :: id in ids && id in store && id != messageId ==>
              id in KeepPresent(ids, store - {messageId})
  {
    KeepPresentMembers(ids, store - {messageId});
  }
}
