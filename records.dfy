/**
 * The records the resolvers read and write (the Mongoose models), and the
 * database that holds them. Every document id is a Mongo ObjectId, known here
 * by its hexadecimal string.
 */
module Records {
  import opened Wrappers

  type ObjectId = string
  type UserId = ObjectId
  type ChatId = ObjectId
  type MessageId = ObjectId
  type EntryId = ObjectId

  datatype User = User(
    username: string, email: string, password: string, description: string,
    avatar: string, lastLogin: int, role: string, likes: int)

  /** A chat lists its users and its messages by id. */
  datatype Chat = Chat(createdDate: int, users: seq<UserId>, messages: seq<MessageId>)

  datatype Message = Message(date: int, content: string, sender: UserId)

  /** A waiting user. The resolver reads and writes `position` as a field. */
  datatype QueueEntry = QueueEntry(id: EntryId, userId: UserId, joinedAt: int, position: int)

  /** The queue is kept in the order `sort({joinedAt: 1})` lists it. */
  predicate JoinOrdered(q: seq<QueueEntry>)
  {
    forall i, j :: 0 <= i < j < |q| ==> q[i].joinedAt <= q[j].joinedAt
  }

  predicate UniqueUsers(q: seq<QueueEntry>)
  {
    forall i, j :: 0 <= i < j < |q| ==> q[i].userId != q[j].userId
  }

  predicate UniqueEntryIds(q: seq<QueueEntry>)
  {
    forall i, j :: 0 <= i < j < |q| ==> q[i].id != q[j].id
  }

  predicate QueueValid(q: seq<QueueEntry>)
  {
    JoinOrdered(q) && UniqueUsers(q) && UniqueEntryIds(q)
  }

  /** `a` is `b` with some elements dropped: what a query filter leaves, in order. */
  predicate Subsequence<T(==)>(a: seq<T>, b: seq<T>)
    decreases |b|
  {
    if a == [] then true
    else if b == [] then false
    else (a[0] == b[0] && Subsequence(a[1..], b[1..])) || Subsequence(a, b[1..])
  }

  /** Index of the first entry with id `id` (`findById`). */
  function FindById(q: seq<QueueEntry>, id: EntryId): (k: Option<nat>)
    ensures k.Some? ==> k.value < |q| && q[k.value].id == id
    ensures k.Some? ==> forall j :: 0 <= j < k.value ==> q[j].id != id
    ensures k.None? <==> forall j :: 0 <= j < |q| ==> q[j].id != id
  {
    if q == [] then None
    else if q[0].id == id then Some(0)
    else match FindById(q[1..], id)
      case None => None
      case Some(k) => Some(k + 1)
  }

  /** Index of the first entry of user `userId` (`findOne({userId})`); a null id matches none. */
  function FindByUser(q: seq<QueueEntry>, userId: Option<UserId>): (k: Option<nat>)
    ensures k.Some? ==> k.value < |q| && Some(q[k.value].userId) == userId
    ensures k.Some? ==> forall j :: 0 <= j < k.value ==> Some(q[j].userId) != userId
    ensures k.None? <==> forall j :: 0 <= j < |q| ==> Some(q[j].userId) != userId
  {
    if q == [] then None
    else if Some(q[0].userId) == userId then Some(0)
    else match FindByUser(q[1..], userId)
      case None => None
      case Some(k) => Some(k + 1)
  }

  function RemoveAt(q: seq<QueueEntry>, k: nat): (r: seq<QueueEntry>)
    requires k < |q|
    ensures |r| == |q| - 1
    ensures forall i :: 0 <= i < k ==> r[i] == q[i]
    ensures forall i :: k <= i < |r| ==> r[i] == q[i + 1]
  {
    q[..k] + q[k + 1..]
  }

  /** Removing an entry keeps the queue ordered and its users and ids distinct. */
  lemma RemoveAtValid(q: seq<QueueEntry>, k: nat)
    requires k < |q| && QueueValid(q)
    ensures QueueValid(RemoveAt(q, k))
  {
  }

  /** The database: the users, chats, messages and queue collections. */
  class Db {
    var users: map<UserId, User>
    var chats: map<ChatId, Chat>
    var messages: map<MessageId, Message>
    var queue: seq<QueueEntry>

    ghost predicate Valid()
      reads this
    {
      QueueValid(queue)
    }

    /** A database holding the given collections, as a restarted server finds it. */
    constructor (users: map<UserId, User>, chats: map<ChatId, Chat>,
                 messages: map<MessageId, Message>, queue: seq<QueueEntry>)
      requires QueueValid(queue)
      ensures Valid()
      ensures this.users == users && this.chats == chats
      ensures this.messages == messages && this.queue == queue
    {
      this.users := users;
      this.chats := chats;
      this.messages := messages;
      this.queue := queue;
    }
  }
}
