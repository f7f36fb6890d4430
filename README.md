# Edugle chat backend: pairing queue, chat and message resolvers

This project models the three GraphQL resolver files that hold the logic of
the Edugle chat-matching backend. The database and the verification of JSON
web tokens are replaced by in-memory state and an uninterpreted function.

- **Pairing queue** (`queueResolver.ts`). `initiateChat` either pairs the
  caller with the longest-waiting entry, which creates a chat and publishes
  `CHAT_STARTED`, or enqueues the caller. The new position comes from a
  cached module-level counter that is initialised from the store on first
  use. `dequeueUser` removes the caller's entry, renumbers the rest 1..n in
  `joinedAt` order and publishes `QUEUE_POSITION_<userId>` updates.
  `queuePosition` and `queue` are reads. `__resolveType` picks the GraphQL
  result type.
- **Chats** (`chatResolver.ts`). `Chat.messages` prunes message ids that no
  longer resolve. The module also has `joinChat`, `createChat` and the
  admin-only `deleteChatAsAdmin`.
- **Messages** (`messageResolver.ts`). `Message.sender` shows a `DELETED`
  placeholder once the sender is gone. The module also has `messageById`,
  `createMessage`, which stores the message, appends it to its chat and
  publishes on the chat's topic, and the two deletes: by the sender, and by
  an admin.

Layout, one module per file:

- `wrappers.dfy`: `Option` and `Result`.
- `records.dfy`: the records, plus the `Db` class holding the users, chats,
  messages and queue collections. It also has the store lookups `FindById`
  and `FindByUser` and the queue invariant.
- `auth.dfy`: `convertToken` and the truthiness rules it depends on.
- `queue_resolver.dfy`: class `QueueResolver`, holding `counter` (the
  module's `globalQueueCounter`) and `events` (its PubSub as an append-only
  log).
- `chat_resolver.dfy`: the chat resolvers, as methods over `Db`.
- `message_resolver.dfy`: class `MessageResolver`, holding its own PubSub
  log, plus the two delete methods.
- `scenarios.dfy`: verified scenarios on small concrete databases, and one cross-resolver fact.

Modelling choices:

- A token resolves through a `Verifier`, a function from a token to an
  optional user id. JavaScript truthiness is explicit: a null or empty id
  counts as unresolved, and an `Error` object counts as truthy.
- Fresh ObjectIds and the clock are method parameters. A new chat's or
  message's id is required not to be stored yet.
- `db.queue` lists the stored entries in ascending `joinedAt` order, the order
  `sort({joinedAt: 1})` gives. A new entry only ever joins an empty queue, so
  any `now` keeps that order.
- `--globalQueueCounter` on a null counter gives -1, as in JavaScript.

Behaviours of the code that the model keeps, each set against what a pairing
queue would be expected to do:

- The chat created by pairing has no users, where one would expect it to list
  both participants.
- A second `initiateChat` by a queued user fails with `ALREADY_IN_QUEUE`,
  instead of answering with the caller's current position.
- `dequeueUser` for a user who is not queued throws `NOT_FOUND`, instead of
  returning a "not in queue" answer with position 0.
- A successful dequeue answers with the number of remaining entries, instead
  of position 0.
- Positions are stored and rewritten on every dequeue, instead of being
  derived from the `joinedAt` order when read.
- The position updates after a dequeue are off by one. They are computed
  from the renumbered positions, so the entry that moves up to the removed
  position is not told, and every later entry is told one less than the
  position it now holds.
- `joinChat`'s duplicate check asks for a chat whose users include both the
  caller and the chat id. No chat lists a chat id among its users, so the
  check never fires and a member joining again is appended a second time.
- `queuePositionUpdated` listens on `QUEUE_POSITION_undefined`, not on the
  caller's own topic, so no client hears the updates a dequeue publishes.

## Model

| member | source | states |
|---|---|---|
| `Records.FindByUser` | src/api/resolvers/queueResolver.ts:76 | the index of the first entry of the given user. It is none exactly when no entry has that user; a null id matches no entry |
| `Records.FindById` | src/api/resolvers/queueResolver.ts:96 | the index of the first entry with the given id. It is none exactly when no entry has that id |
| `Records.RemoveAt` | src/api/resolvers/queueResolver.ts:126 | deleting one entry keeps every other entry in order and shifts the later ones down by one |
| `Records.RemoveAtValid` | src/api/resolvers/queueResolver.ts:126 | deleting an entry keeps the queue in joinedAt order, with distinct users and distinct entry ids |
| `Auth.ConvertToken` | src/api/resolvers/messageResolver.ts:143-152 | an empty token gives 'No token'. A non-empty token that does not verify to a truthy id gives 'Token conversion failed'. Otherwise the result is the verified id. All three as if-and-only-if |
| `Auth.ConvertTokenTruthy` | src/api/resolvers/chatResolver.ts:121-130 | what convertToken returns is always truthy: an Error object, or a non-empty id |
| `Auth.Resolved` | src/api/resolvers/queueResolver.ts:70 | definition (the `!userId` test, with null and the empty string falsy); its property is stated by `Auth.ConvertToken` and `QueueResolver.QueueResolver.InitiateChat` |
| `Auth.IsAdmin` | src/api/resolvers/chatResolver.ts:110 | definition (`user && user.role === 'admin'`); its property is stated by `ChatResolver.AdminCheck` and `MessageResolver.AdminDeleteCheck` |
| `QueueResolver.PositionTopic` | src/api/resolvers/queueResolver.ts:142 | the topic is the `QUEUE_POSITION_` prefix followed by the user id, nothing lost on either side |
| `QueueResolver.PositionTopicExact` | src/api/resolvers/queueResolver.ts:142 | an event is on user u's `QUEUE_POSITION_` topic if and only if it is a position update for exactly u. No chat-started event shares the topic |
| `QueueResolver.PositionSubscriptionHearsOnlyUndefined` | src/api/resolvers/queueResolver.ts:159-162 | the `queuePositionUpdated` subscription, whose topic is built from an undefined root value, hears a position update only if the user id is the literal string "undefined" |
| `QueueResolver.UnusedTopicsStaySilent` | src/api/resolvers/queueResolver.ts:171-180 | no queue event is ever published on `USER_JOINED_QUEUE` or `USER_LEFT_QUEUE` |
| `QueueResolver.ResolveType` | src/api/resolvers/queueResolver.ts:41-49 | a defined chatId gives PairedChatResponse, even with a position. Otherwise a defined position gives QueuePositionResponse. Otherwise the result is the invalid-type error. Each as if-and-only-if |
| `QueueResolver.TransformQueueEntry` | src/api/resolvers/queueResolver.ts:29-37 | the listing view keeps every field of the entry: the entry reads back from it |
| `QueueResolver.TransformQueueEntryRoundTrip` | src/api/resolvers/queueResolver.ts:29-37 | the listing view of an entry and the entry determine each other, so nothing is lost |
| `QueueResolver.Queue` | src/api/resolvers/queueResolver.ts:52-55 | one view per stored entry, in store order, each reading back to its entry |
| `QueueResolver.QueuePosition` | src/api/resolvers/queueResolver.ts:56-63 | fails with 'User is not in the queue' exactly when the caller has no entry. Otherwise it returns status 'Queue' with the stored position of the caller's entry. It is a function and changes no state |
| `QueueResolver.Decremented` | src/api/resolvers/queueResolver.ts:97 | definition (`--globalQueueCounter`, a null counter reading as 0); its property is stated by `QueueResolver.QueueResolver.InitiateChat`, `QueueResolver.QueueResolver.DequeueUser` and `Scenarios.PairingBeforeCounterInit` |
| `QueueResolver.RenumberPositions` | src/api/resolvers/queueResolver.ts:128-132 | entry i gets position i + 1, and every other field and the order are unchanged |
| `QueueResolver.UsersToUpdate` | src/api/resolvers/queueResolver.ts:140 | never more entries than the queue |
| `QueueResolver.UsersToUpdateMembers` | src/api/resolvers/queueResolver.ts:140 | the selection contains exactly the stored entries whose position exceeds the given one, proved by induction |
| `QueueResolver.UsersToUpdateInOrder` | src/api/resolvers/queueResolver.ts:140 | the selected entries come in store order with none repeated: an order-preserving sub-sequence of the queue |
| `QueueResolver.PositionEvents` | src/api/resolvers/queueResolver.ts:141-143 | one update per selected entry, in order, addressed to that entry's user and carrying its position minus 1 |
| `QueueResolver.PositionEventsTargetQueued` | src/api/resolvers/queueResolver.ts:140-143 | each update after a dequeue goes to a user still queued behind the removed position, and carries that user's position minus 1 |
| `QueueResolver.UsersToUpdateOfNumbered` | src/api/resolvers/queueResolver.ts:140 | on consecutively numbered entries, the entries behind a position form a suffix of the queue |
| `QueueResolver.DequeueNotifiesFromSecondFollower` | src/api/resolvers/queueResolver.ts:128-143 | after renumbering, when the removed entry's stored position matched its index k, the entry now at index k gets no update. The entry at each later index j is told j, while its position is j + 1 |
| `QueueResolver.RenumberedRemovalValid` | src/api/resolvers/queueResolver.ts:126-132 | removing the caller's entry and renumbering keeps the queue valid and leaves no entry of the caller |
| `QueueResolver.QueueResolver.constructor` | src/api/resolvers/queueResolver.ts:17-19 | the counter starts null and nothing has been published |
| `QueueResolver.QueueResolver.GetGlobalQueueCounter` | src/api/resolvers/queueResolver.ts:22-27 | a null counter is set to the store's count; an initialised counter is returned as it is |
| `QueueResolver.QueueResolver.InitiateChat` | src/api/resolvers/queueResolver.ts:67-115 | an unresolved token gives NOT_AUTHORIZED and a queued caller gives ALREADY_IN_QUEUE, both changing nothing. On a non-empty queue it has several effects: the entry with minimal joinedAt is removed; the caller is not added; a chat with no users is created under the fresh id; the counter is decremented; exactly one CHAT_STARTED event is appended; the result is Paired. On an empty queue the caller is enqueued at (counter, initialised to the store count) + 1, the counter ends at that position, and queuePosition then reports it. It keeps the invariants: the counter stays equal to the entry count, the queue holds at most one entry, and a lone enqueue gets position 1 |
| `QueueResolver.QueueResolver.PublishPositionUpdates` | src/api/resolvers/queueResolver.ts:141-143 | appends exactly one position update per entry to update, in order, after the existing log |
| `QueueResolver.QueueResolver.DequeueUser` | src/api/resolvers/queueResolver.ts:117-146 | a caller without an entry gets NOT_FOUND and nothing changes. Otherwise the caller's entry is removed, the rest are numbered 1..n in joinedAt order, and the counter is decremented. The log grows by the position updates for entries behind the removed position, and the result is 'User left from queue' with n. The caller is then no longer queued, and the counter-equals-count and at-most-one-entry invariants are kept |
| `ChatResolver.FoundMessages` | src/api/resolvers/chatResolver.ts:27 | exactly the stored messages whose id the chat lists, with their stored contents |
| `ChatResolver.MissingIds` | src/api/resolvers/chatResolver.ts:28-29 | contains exactly the listed ids that were not found |
| `ChatResolver.MissingIdsInOrder` | src/api/resolvers/chatResolver.ts:28-29 | the missing ids come in list order: an order-preserving sub-sequence of the listed ids |
| `ChatResolver.PullAll` | src/api/resolvers/chatResolver.ts:31 | keeps exactly the listed values that are not among those pulled |
| `ChatResolver.PullAllInOrder` | src/api/resolvers/chatResolver.ts:31 | what is kept stays in list order: an order-preserving sub-sequence of the list |
| `ChatResolver.KeepPresentMembers` | src/api/resolvers/chatResolver.ts:27-31 | the pruned list holds exactly the listed ids that exist in the store |
| `ChatResolver.KeepPresentAllPresent` | src/api/resolvers/chatResolver.ts:30-32 | when every listed id resolves, the list is unchanged |
| `ChatResolver.PullAllAgrees` | src/api/resolvers/chatResolver.ts:31 | pulling a list that marks exactly the absent ids gives the order-preserving filter of the present ones |
| `ChatResolver.PruneKeepsPresent` | src/api/resolvers/chatResolver.ts:27-31 | pulling the missing ids from the chat list removes exactly the ids absent from the store, and the survivors keep their relative order |
| `ChatResolver.ChatMessages` | src/api/resolvers/chatResolver.ts:24-40 | an empty list gives no messages and no change. Otherwise it returns only stored messages that the chat lists, and the chat's list becomes its present ids in order. When all ids are present the store is unchanged |
| `ChatResolver.LookupUser` | src/api/resolvers/chatResolver.ts:67 | definition (`findById` on the converted id, an Error value finding none); its property is stated by `ChatResolver.JoinChatOutcome` and `ChatResolver.JoinChatErrors` |
| `ChatResolver.ChatWithUser` | src/api/resolvers/chatResolver.ts:73 | when no chat lists a chat id among its users, the duplicate query never finds a chat for a stored chat id |
| `ChatResolver.JoinChatOutcome` | src/api/resolvers/chatResolver.ts:56-82 | success if and only if the chat is stored, the token converts, the user is stored and no chat lists both the user and the chat id. The chat's user list then gains that id at the end |
| `ChatResolver.JoinChatErrors` | src/api/resolvers/chatResolver.ts:57-77 | the whole error ladder, each as if-and-only-if: an unknown chat gives 'Chat not found'; in a known chat, a token that fails to convert or an id that is not stored gives 'User not found'; a stored user with a chat listing both ids gives 'User already in chat'. 'Not authorized' never occurs |
| `ChatResolver.JoinChatNeverDuplicateChecked` | src/api/resolvers/chatResolver.ts:73-79 | when no chat lists a chat id among its users, a stored user joining a known chat is appended, even if already listed |
| `ChatResolver.JoinChat` | src/api/resolvers/chatResolver.ts:79-81 | the result is the outcome above. Errors change nothing. Success stores the chat with its user list grown by one, earlier users unchanged |
| `ChatResolver.CreateChat` | src/api/resolvers/chatResolver.ts:83-96 | stores a new chat with the given users, no messages and the creation time, under the fresh id |
| `ChatResolver.AdminCheck` | src/api/resolvers/chatResolver.ts:97-114 | checks in order, each as if-and-only-if: missing token gives NO_TOKEN; failed verification gives FAILED_TO_CONVERT; a missing or non-admin user gives NOT_AUTHORIZED. Otherwise the admin's id |
| `ChatResolver.DeleteChatAsAdmin` | src/api/resolvers/chatResolver.ts:97-117 | a failed check throws that error and changes nothing. Otherwise the chat is removed and returned, or none is returned when unknown |
| `MessageResolver.Sender` | src/api/resolvers/messageResolver.ts:32-38 | the stored sender, or the fixed DELETED placeholder when the sender is not stored |
| `MessageResolver.SenderPlaceholderIffDeleted` | src/api/resolvers/messageResolver.ts:14-23 | when no stored user has role 'DELETED', a message shows that role if and only if its sender is gone |
| `MessageResolver.MessageById` | src/api/resolvers/messageResolver.ts:55-60 | the stored message, or 'Message not found' exactly when the id is absent |
| `MessageResolver.DeleteMessageCheck` | src/api/resolvers/messageResolver.ts:115-123 | a token error is returned as is. Deletion is allowed if and only if the caller is the message's sender; another caller gets 'Not authorized!'. An unknown id gives the null-dereference error `NullMessageCrash` |
| `MessageResolver.AdminDeleteCheck` | src/api/resolvers/messageResolver.ts:128-136 | a token error is returned as is. The caller passes if and only if it is a stored user with role 'admin'; otherwise 'Not authorized!' |
| `MessageResolver.MessageResolver.constructor` | src/api/resolvers/messageResolver.ts:13 | nothing has been published |
| `MessageResolver.MessageResolver.CreateMessage` | src/api/resolvers/messageResolver.ts:83-113 | a token error is returned and nothing is stored. An unknown chat gives 'Chat not found', with nothing stored or published. Empty content fails the schema's required check (messageModel.ts:9-11), with nothing stored or published. Otherwise it stores the content with sender = caller, and appends the new id to the chat's list with earlier ids unchanged. It publishes exactly one event on the chat's topic, and messageById then finds the message |
| `MessageResolver.DeleteMessage` | src/api/resolvers/messageResolver.ts:115-126 | the result is the check above. A rejected caller leaves the message. The sender removes exactly that message |
| `MessageResolver.DeleteMessageAsAdmin` | src/api/resolvers/messageResolver.ts:128-139 | the message is removed only when the caller is an admin, and is returned if it existed. Otherwise the error is returned and nothing changes |
| `Scenarios.AliceThenBob` | src/api/resolvers/queueResolver.ts:85-113 | Alice joins an empty queue at position 1. Bob is then paired, and the one event names the new chat, which lists no users |
| `Scenarios.PairingBeforeCounterInit` | src/api/resolvers/queueResolver.ts:96-104 | after a restart with one stored entry, a pairing turns the null counter into -1, and the next enqueue is told position 0 |
| `Scenarios.FirstOfThreeLeaves` | src/api/resolvers/queueResolver.ts:126-143 | with three waiting, the first leaves. The second then holds position 1 but is not notified, and the third is told 1 while holding 2 |
| `Scenarios.DequeueTwice` | src/api/resolvers/queueResolver.ts:117-124 | a first dequeue succeeds and a second one fails with NOT_FOUND |
| `Scenarios.DeletedMessageIsPruned` | src/api/resolvers/chatResolver.ts:27-31 | after a message is deleted, the next pruning drops its id from a chat's list and keeps every other stored id |

## Left out

- JSON web token verification (`src/utils/auth.ts`) is an uninterpreted `Verifier`. Token formats, secrets and expiry are not modelled.
- The database is in-memory maps and one sequence. Mongoose casting errors on malformed ids are not modelled. As a modelling choice, an `Error` object passed as a user id matches no user. This follows the expectation of 'User not found' in the test helper `joinChatWithWrongToken` (test/chatTestFunc.ts), which no test calls. The cast error Mongoose would raise on such an id is not modelled. An id that matches no stored entry simply finds nothing.
- Concurrency: every resolver runs as one atomic step. In the source the renumbering saves in `dequeueUser` are not awaited, and nothing in `initiateChat` is transactional. The races this allows (double pairing, lost renumbering, notifications read before the saves land) are not modelled.
- QueueResolver.QueueResolver.InitiateChat: requires that the new chat's id is not stored yet. ObjectId collisions are not modelled.
- The TTL index on `joinedAt` (entries expire after 1800 seconds) is a database-side timer and is not modelled.
- Pub/sub delivery: publishing appends to a log. Subscriber fan-out and async iterators are not modelled. Only the topic names are.
- The topic `queuePositionUpdated` subscribes to is not `PositionTopic(u)` for the subscribing user u. Its `subscribe` takes the GraphQL root value as its first parameter, and the WebSocket server (`src/app.ts`) sets no root value. So the topic is `QUEUE_POSITION_undefined`, the constant `SubscribedPositionTopic`. The server setup is not part of this model and is taken as given. The resolver list exported by `src/api/resolvers/index.ts` does not include the queue resolver at all, so as the repository stands none of the queue operations is served. The model describes the resolver as written.
- Blocks that catch and rethrow errors (in `Chat.users`, `Chat.messages` and `Message.sender`) around store failures are not modelled.
- The `if (!createChat)` and `if (!createMessage)` checks are not modelled: creation either succeeds or throws, so the checks never fire.
- MessageResolver.MessageResolver.CreateMessage: the schema's validation error on empty content is modelled as the returned error value `ContentRequired`. That `create` throws it rather than returning it is not distinguished. The other schema checks (`date` and `sender` required, ObjectId casts) are not modelled.
- The queue schema (`src/api/models/queueModel.ts`) declares no `position` path, so under Mongoose's default strict mode the resolver's writes of `position` would not be persisted. The model keeps `position` as a stored field, as the resolver reads and writes it.
- ChatResolver.ChatMessages: returns the found messages as a map from id to message. The order and deduplication of a `$in` query result are not modelled. The method also requires that the parent chat is still stored, so a stale parent record is not modelled.
- MessageResolver.DeleteMessage: on an unknown message id the source throws a TypeError reading `sender` of null. The model returns that as the error value `NullMessageCrash`.
- The `DELETED` placeholder's own generated `_id` is not modelled.
- `console.log` calls are left out.
- Read-only helpers outside the modelled core are left out: `Chat.users`, `chats`, `chatsByUser`, `messages`, `messagesBySenderToken` and `messagesBySenderId`.
- The user and auth resolvers, Express controllers and routes, and server bootstrap are not part of this model. They proxy HTTP, hash passwords and wire servers.
