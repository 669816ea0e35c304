# NebulaIM, verified

A Dafny model of the parts of NebulaIM, an instant-messaging backend in C++, that are hardest to get
right, with proofs of what they promise. `dafny verify dfyconfig.toml` checks everything.

**The delivery pipeline** (`PipelineState`, `PipelineGrowth`, `OutboxSafety`, `OutboxTheorems`,
`OutboxTrace`, `OutboxDao`, `PushSafety`, `PushSteps`, `Quiescence`, `Audience`, `Recall`, `Scenarios`,
`Cluster`, `PushWorker`, `Drain`, `DrainExact`, `DrainMany`, `OwnRecords`). A send or a recall commits its
message and one outbox event together. Any number of outbox workers claim events under a lease and a token,
publish to Kafka and mark the row. Push workers poll, deliver to connections, save offline, re-queue on the
retry topic or dead-letter, and commit or seek back. The pipeline is a step system in which an event is one
database transaction, one Kafka, Redis or gateway call, one crash or one change of membership, and carries
every choice the outside makes. The workers themselves are classes whose methods make those calls in the
order the source does, with everybody else taking any number of steps between two of them.

**The message store** (`MessageStore`, `Receipts`, `Unread`, `Absence`, `IdempotentSend`, `MessageService`,
`Pagination`, `OfflineMessages`, `Selection`). Idempotent sends behind a cache that may hold anything, the
incremental unread count against the recount, keyset pagination, and the offline table.

**The wire stack** (`Bytes`, `Buffer`, `Streams`, `PacketCodec`, `WebSocketFrame`, `FrameForms`,
`Transport`, `Resync`, `Refusal`, `Gateway`, `GatewaySession`, `TcpConnection`). The byte buffer, packets,
WebSocket frames (sections 5.2, 5.3 and 5.5 of RFC 6455), the gateway's decode loops and partial writes.

**Concurrent and arithmetic components** (`EventLoop`, `EventLoopThread`, `TokenBucket`, `RateLimiter`,
`PruneExact`, `MessageIdGenerator`, `ConnectionManager`, `Preview`).

## What is assumed

- Database transactions are serialised and atomic, and the unique keys the code relies on hold:
  message id, event id, (sender, non-zero client sequence), (owner, conversation), (message, user).
- A Kafka topic is an append-only log per partition. `produce` returning true means appended; false
  leaves the record in limbo, from which it may be appended any number of times, later or never.
- A crash or rebalance resets a consumer's position to the committed offset; automatic commit is off.
- Claim tokens are fresh, and parsing a payload is the inverse of serialising it.
- Conversation ids are injective. Clocks, gateways, online devices, caches, group membership, masks and
  what each foreign call answers are inputs.
- In the pipeline groups change only as CreateGroup, JoinGroup and LeaveGroup let them.
- After the write side of a socket is shut, every send on it fails.

## What turned out not to hold as one might expect

- A recall can reach a recipient nowhere: an offline row the client has acknowledged is not changed any
  more (`Scenarios.RecallLost`). It can also be saved and then overwritten by the message it recalls
  (`Scenarios.RecallOverwritten`). `Recall.RecallTheorem`, `Recall.SavedIff` and `Recall.RowIff` say
  exactly when the recall is written and when the row holds it.
- A stored unread count can be too small in a group, for somebody who joins late or who leaves and comes
  back (`Absence.LateJoinerMiscounts`, `Absence.RejoinerMiscounts`); `Absence.StoredCountExact` says by how
  much and exactly when.
- A backlog does not drain past a record whose group has nobody left, or whose target is user 0 or
  message 0 (`DrainExact.PoisonBlocks`), whoever acts, until the group's membership changes
  (`DrainExact.PoisonBlocksAll`). Every other backlog drains, with one worker or several
  (`DrainExact.DrainStarts`, `Drain.DrainCompletes`, `DrainMany.TeamCompletes`). Of the records the pipeline
  itself writes, only those for an empty group are such records (`OwnRecords.PoisonIffEmpty`), and a group
  is emptied only if its owner is removed because `isOwner` answers false when it gets no connection or its
  query fails (`OwnRecords.EmptyNeedsOwner`). That can happen (`Scenarios.PoisonReachable`).
- Pagination repeats a page whose oldest message has a time that is not positive
  (`Pagination.ZeroTimeRepeats`); it resumes exactly in every other case (`Pagination.ResumeExact`).
- A shutdown that is run after the connection was closed half-closes with bytes still pending
  (`TcpConnections.LateShutdown`); `ShutdownInLoop` says exactly when it is drained.
- A packet refused by the rate limiter drops what is buffered behind it, so a raw TCP stream stays in
  step exactly when the bytes read so far are whole packets (`Resync.InStepIff`,
  `Refusal.ReadOnAfterRefusal`); `Refusal.OutOfStep` is a stream thrown out of step. WebSocket frames stay
  in step (`Gateway.OnWebSocketMessage`).
- Forgetting idle rate-limit buckets is invisible if and only if each bucket refills within the idle time
  less the time between the two clock readings of one call (`PruneExact.TransparentIff`,
  `RateLimiters.SkewMatters`).
- Node ids from 1023 up share one node (`MessageIds.SharedId`), and the first id of node 0 at or before
  the epoch is 0 (`MessageIdGenerator.NextId`).
- A functor queued by the owner before the loop starts does not wake it (`EventLoops.EarlyPushSleeps`);
  `EventLoops.WakeupIff` says exactly when a wakeup is lost. A quit asked for before the loop starts is
  forgotten (`EventLoops.EarlyQuitForgotten`); `EventLoops.QuitFlag` says which requests count.
- The WebSocket decoder accepts lengths that are not in their minimal form, against section 5.2 of RFC 6455
  (`FrameForms.LongLengthAccepted`); `FrameForms.DecodesOnlyFrames` says exactly what it accepts.
- The packet format follows the codec's header; `tests/test_packet_codec_stream.cpp` uses an interface
  that header does not have.

## Model

| member | source | states |
|---|---|---|
| `PipelineGrowth.EveryEventGrows` | common/kafka/KafkaProducer.cpp:81-131 | no event of any worker, database or broker takes back what others rely on: logs, deliveries and the history of saved payloads only grow, acknowledged rows stay acknowledged, and committed messages keep their data |
| `OutboxSafety.EventKeepsOutboxInv` | common/outbox/OutboxWorker.cpp:39-75 | every single event, by anyone, keeps the outbox invariant: rows match their messages, a token is set exactly while PUBLISHING, terminal statuses have their log records, and a worker's copy of a row is current while it owns the claim |
| `OutboxSafety.RunKeepsOutboxInv` | common/outbox/OutboxWorker.cpp:39-75 | the outbox invariant holds after every run with any number of workers, lease expiry, crashes and ambiguous produce failures |
| `OutboxTheorems.Conservation` | message_service/src/MessageServiceImpl.cpp:187-211 | in every reachable state each committed send and each committed recall has exactly its own event with its own payload; the event is still to be published, or its payload is in its topic (PUBLISHED) or in the DLQ (DEAD); and no event exists without its committed message |
| `OutboxTheorems.RetryCountIsFailures` | common/outbox/OutboxDao.cpp:90-123 | in every reachable state retry_count is the number of accepted counted failures, never above max_retry_count; claim_token is non-empty exactly when PUBLISHING; DEAD only at max_retry_count with the payload in the DLQ |
| `OutboxTheorems.MarkOwnsLatestClaim` | common/outbox/OutboxDao.cpp:63-123 | a mark is accepted only from the worker that made the latest claim of that event |
| `OutboxTrace.DeadAfterFailureAndDlq` | common/outbox/OutboxWorker.cpp:53-61 | whenever an event is marked DEAD, the marking worker has since its claim failed one more publish and then written the DLQ successfully, with max_retry_count failures counted before |
| `OutboxDaos.OutboxDao.InsertEvent` | common/outbox/OutboxDao.cpp:37-48 | inserts a row if and only if the statement succeeds and the event id is not taken, and changes nothing otherwise |
| `OutboxDaos.OutboxDao.ClaimPendingEvents` | common/outbox/OutboxDao.cpp:63-88 | claims exactly the oldest due unlocked events under one token and returns them, or returns nothing and leaves the table as it was; only a failed commit can leave claims nobody knows of. What is returned waited to be published, failed or was left by another worker, with its time come, in the order of creation and then row, and none that waited was left out while there was room. It is not due again before the lease ends, 30 seconds if none is given, and due from then on |
| `OutboxDaos.OutboxDao.ClaimDue` | common/outbox/OutboxDao.cpp:63-88 | the SELECT and the UPDATE per event, with any of them failing |
| `OutboxTheorems.LeaseHolds` | common/outbox/OutboxDao.cpp:74-79 | in every run behind a claim, unless the claiming worker's mark is accepted: no worker can claim the event before the lease ends, and it can be claimed from then on |
| `OutboxTheorems.ClaimableIff` | common/outbox/OutboxDao.cpp:66-70 | a worker with nothing in hand can claim an event if and only if it is neither published nor dead and its time has come |
| `OutboxDaos.OutboxDao.MarkPublished` | common/outbox/OutboxDao.cpp:90-99 | reports a changed row if and only if it is PUBLISHING under this non-empty token and the call succeeds; a call that fails reports none, and its update may or may not stand |
| `OutboxDaos.OutboxDao.MarkFailed` | common/outbox/OutboxDao.cpp:101-112 | the same for FAILED, with the new retry count and due time |
| `OutboxDaos.OutboxDao.MarkDead` | common/outbox/OutboxDao.cpp:114-123 | the same for DEAD |
| `OutboxDaos.ClaimIsStep` | common/outbox/OutboxDao.cpp:69-85 | the claiming statement changes the outbox exactly as the step system's Claim does |
| `OutboxDaos.MarkIsStep` | common/outbox/OutboxDao.cpp:90-123 | the three mark statements change the outbox exactly as the step system's marks do, when they apply |
| `Cluster.OutboxWorker.RunOnce` | common/outbox/OutboxWorker.cpp:39-75 | with everybody else running between any two calls, the worker's calls are a sequence of well-formed passes over claimed events, at most a batch, and fewer only when the last claim failed or no unlocked row was due |
| `Cluster.OutboxWorker.TryClaim` | common/outbox/OutboxWorker.cpp:42-43 | a claim with limit one finds an event if and only if the call succeeds and some unlocked row is due; the event is such a row and its token is new |
| `Cluster.OutboxWorker.RunClaimed` | common/outbox/OutboxWorker.cpp:43-73 | one claimed event: publish, then exactly the marking calls its outcome and its retry count require |
| `Cluster.OutboxWorker.RunPublished` | common/outbox/OutboxWorker.cpp:46-73 | what follows a publish, by its result and the retry count |
| `Cluster.OutboxWorker.RunExhausted` | common/outbox/OutboxWorker.cpp:54-69 | retries used up: DLQ, then markDead if that succeeded, else markFailed with the count unchanged |
| `Cluster.OutboxWorker.Mark` | common/outbox/OutboxDao.cpp:90-123 | a mark leaves the worker idle whether or not the database changed the row |
| `PushSteps.EventKeepsPushInv` | push_service/src/PushWorker.cpp:34-123 | every single event keeps the push invariant: positions, jobs in progress and committed offsets only ever cover settled records |
| `PushSteps.RunKeepsPushInv` | push_service/src/PushWorker.cpp:34-123 | the push invariant holds after every run with handler failures, commit failures, seeks, restarts and several workers |
| `Quiescence.CommitPrefixSafety` | push_service/src/PushWorker.cpp:34-75 | in every reachable state every record below a committed offset exists and is settled: each recipient listed when it was pushed was delivered to, had it written to their offline row, was re-queued by a later retry record, is covered by a DLQ record, or had acknowledged the message |
| `Quiescence.ResumesExactly` | push_service/src/PushWorker.cpp:34-75 | a worker that crashed or lost a partition takes up exactly the first record that is not committed, if there is one, and every record before it is settled |
| `Quiescence.Drained` | common/push/PushDispatcher.cpp:37-82 | with everything committed to its end, following retry records forward ends, for each user, in a delivery, a write to the offline row, a DLQ record or an acknowledged message |
| `Quiescence.QuiescenceTheorem` | common/push/PushDispatcher.cpp:37-124 | in every reachable state with no PENDING, FAILED or PUBLISHING outbox row and every single, group and retry partition committed to its end, every recipient of every committed message, and of its recall if recalled, was handed to a connection, had it written to their offline row, or is covered by a DLQ record, or else has an acknowledged row for the message |
| `Audience.EverybodyReached` | common/push/PushDispatcher.cpp:37-72 | the same told by the events alone: in every run that ends at rest, everybody who was in the group when a message was sent and has not left since, or whom a single message names, has been reached with it or has an acknowledged row for it, and likewise with its recall if one was committed |
| `Audience.SteadyIff` | common/push/PushDispatcher.cpp:37-72 | the state's notion of whom a message is for is exactly: entered the group before the send and not left since, neither before the send nor behind it |
| `Audience.MemberIff` | relation_service/src/RelationServiceImpl.cpp:164-206 | over every run, somebody is in a group if and only if they created or joined it and have not left since, as a member or as its owner |
| `Audience.RecalledIff` | message_service/src/MessageServiceImpl.cpp:526-530 | a message is recalled if and only if a recall of it was committed |
| `Quiescence.ServedResolved` | common/push/PushDispatcher.cpp:58-72 | in every such state the same holds of everybody a record was fanned out to, also of those who have left the group since |
| `Recall.SavedIff` | common/dao/OfflineMessageDao.cpp:57-66 | over every run, a payload was written to a user's offline row if and only if it was inserted at a moment when the user had not acknowledged the message |
| `Recall.RowIff` | common/dao/OfflineMessageDao.cpp:57-66 | over every run, the row holds a payload if and only if it was so inserted and no other payload of that message was inserted after it and before the acknowledgement |
| `Recall.AckedIff` | common/dao/OfflineMessageDao.cpp:112-116 | over every run, the row is acknowledged if and only if the client acknowledged the message at a moment when the row existed; an acknowledgement before that changes nothing |
| `Recall.RecallTheorem` | message_service/src/MessageServiceImpl.cpp:526-530 | in every reachable quiet state each recipient of a recalled message was reached with the recall or acknowledged the message while its offline row existed; reached means delivered, dead-lettered or inserted before such an acknowledgement, and the row holds the recall if and only if that insert was the last before it |
| `Scenarios.RecallLost` | common/dao/OfflineMessageDao.cpp:64-64 | for every configuration, a run from the start to a quiet state in which a recalled message was acknowledged and its recall reached that recipient nowhere |
| `Scenarios.RecallOverwritten` | common/push/PushDispatcher.cpp:74-82 | a run from the start to a quiet state in which the recall was saved and the message it recalls, waiting on the retry topic, was saved over it |
| `PushWorkers.PushWorker.HandlePushFailure` | common/push/PushDispatcher.cpp:74-82 | the calls are the retry count and then the retry topic if the count failed or is within the budget, or else the DLQ and the offline table, and the answer is that of the produce |
| `PushWorkers.PushWorker.PushToUser` | common/push/PushDispatcher.cpp:37-56 | the calls are a refusal of user 0 or message 0, or a lookup followed by the offline table when nobody is online and by the devices otherwise; the answer is true exactly if the save, a delivery, the retry topic or the DLQ took the message |
| `PushWorkers.PushWorker.DeliverToDevices` | common/push/PushDispatcher.cpp:44-49 | one delivery call for every device, and whether one accepted |
| `PushWorkers.PushWorker.PushToGroup` | common/push/PushDispatcher.cpp:58-72 | every listed member but a skipped sender is pushed to with the calls of a user, and exactly the failures are counted |
| `PushWorkers.PushWorker.DeadLetter` | push_service/src/PushWorker.cpp:77-96 | a record that cannot be handled goes to the DLQ, and is handled exactly if that succeeded |
| `PushWorkers.PushWorker.HandleKafkaMessage` | push_service/src/PushWorker.cpp:77-123 | the branches by topic and ids, with the calls each makes; if it returns true the record is settled: everybody it is for has it, is queued again, or is covered by the DLQ |
| `PushWorkers.PushWorker.PushOne` | push_service/src/PushWorker.cpp:98-104 | a single or retry record is handled exactly if its user was settled |
| `PushWorkers.PushWorker.PushMembers` | push_service/src/PushWorker.cpp:106-113 | a group record is handled exactly if no member failed |
| `PushWorkers.PushWorker.HandlePolled` | push_service/src/PushWorker.cpp:44-73 | after the handler's calls there is a commit if and only if the handler succeeded, and a seek back if and only if it failed or the commit did; the worker stops exactly when that seek fails |
| `PushWorkers.PushWorker.Settle` | push_service/src/PushWorker.cpp:55-73 | the commit and seek calls that follow a handler's answer |
| `PushWorkers.PushWorker.Run` | push_service/src/PushWorker.cpp:34-75 | over any number of polls the worker's calls are, round by round, an assignment, a poll left by a stop, or a poll with its handler's calls and then the commit or seek the handler's answer requires |
| `Drain.HealthyCallDrains` | common/push/PushDispatcher.cpp:44-82 | while Kafka, Redis and MySQL calls succeed, every call of the worker makes a six-part lexicographic measure smaller, whoever is online and whatever gateways answer |
| `Drain.NeverStuck` | push_service/src/PushWorker.cpp:34-75 | until every partition is committed to its end some successful call is due |
| `Drain.DrainTerminates` | common/push/PushDispatcher.cpp:44-82 | no infinite run of successful calls exists, so a finite backlog is drained |
| `Drain.DrainCompletes` | push_service/src/PushWorker.cpp:34-75 | a worker that makes a successful call whenever one is due comes, after finitely many, to a state in which every partition is committed to its end |
| `Drain.ClearRestores` | common/push/PushRetryManager.cpp:25-27 | a delivery that clears the counter gives the pair its whole retry budget back, and changes no other pair's |
| `Drain.ExpiryRestores` | common/push/PushRetryManager.cpp:13-14 | so does a counter that expires |
| `DrainMany.TeamCallDrains` | common/push/PushDispatcher.cpp:44-82 | with several workers, each on partitions of its own, every successful call of any of them keeps the team's invariant and makes its measure smaller, also when it appends to another worker's retry partition |
| `DrainMany.TeamNeverStuck` | push_service/src/PushWorker.cpp:34-75 | until every partition is committed to its end some worker has a successful call due |
| `DrainMany.TeamCompletes` | push_service/src/PushWorker.cpp:34-75 | several workers, their calls interleaved in any way, come after finitely many calls to a state in which every partition is committed to its end |
| `Drain.RetryBudget` | common/push/PushRetryManager.cpp:10-27 | between two clears a (message, user) pair gets at most max_retry_count retry records |
| `Drain.SpentGoesToDlq` | common/push/PushRetryManager.cpp:10-27 | with the budget used up the next counted failure of a pair goes to the DLQ and is there |
| `DrainExact.DrainStarts` | common/push/PushDispatcher.cpp:37-72 | every backlog without a poison record meets the conditions of the draining theorems |
| `DrainMany.TeamStarts` | common/push/PushDispatcher.cpp:37-72 | the same for several workers with partitions of their own |
| `DrainExact.PoisonBlocks` | common/push/PushDispatcher.cpp:58-65 | the condition is exact: a record whose group has nobody left, or one of whose targets is user 0 or message 0, is never committed, nor anything behind it, whatever calls the worker makes and however they turn out |
| `DrainExact.PoisonBlocksAll` | common/push/PushDispatcher.cpp:58-65 | the same for any events of any workers, databases, brokers and clients that leave that group's membership alone |
| `Scenarios.PoisonReachable` | relation_service/src/RelationServiceImpl.cpp:202-203 | a run from the start in which the owner and only member of a group sends a message and then leaves, because the owner check got no answer from the database, and which ends with a worker about to consume a record it can never handle |
| `Scenarios.StuckForever` | push_service/src/PushWorker.cpp:106-113 | after that run, whatever happens while the group stays empty, the partition stays committed at 0 with the record in it |
| `OwnRecords.PoisonIffEmpty` | common/push/PushDispatcher.cpp:37-72 | in every run in which nobody else writes to the topics, a record of any log blocks its partition if and only if it is for a group that has nobody left |
| `OwnRecords.EmptyNeedsOwner` | common/dao/GroupDao.cpp:77-83 | and a group that some record is for has nobody left only if its owner was removed, past an owner check that failed |
| `OwnRecords.OwnBacklogDrains` | relation_service/src/RelationServiceImpl.cpp:195-206 | so every backlog the pipeline itself produces meets the conditions of the draining theorem for any workers that share its partitions, unless the owner of a group it is for was removed |
| `Unread.RunKeepsUnread` | common/conversation/ConversationDao.cpp:146-178 | the unread invariant holds over all runs of send, ack, mark-read, mark-conversation-read, recall, delete and cache actions |
| `Unread.SingleChatUnread` | common/conversation/ConversationDao.cpp:49-72 | in single chats the incremental count always equals the recount |
| `Unread.NewMemberUnread` | common/conversation/ConversationDao.cpp:97-111 | for somebody whose first row a group send creates, the count is right if and only if no earlier message counts for them |
| `Receipts.ReadUpToExact` | common/dao/MessageReceiptDao.cpp:41-58 | reading up to a cursor stamps exactly the messages of others in the conversation that are not recalled and not behind the cursor in (time, id) order, with times that never go back; no other receipt, message or row changes, and what remains to be read, which the row then counts, is what is behind the cursor |
| `Receipts.ReadOneExact` | common/dao/MessageReceiptDao.cpp:32-39 | reading one message stamps it alone and takes it alone off what is to be read |
| `Receipts.AckExact` | common/dao/MessageReceiptDao.cpp:17-24 | an acknowledgement stamps the delivery alone; nothing becomes read and no row changes |
| `Receipts.RecallExact` | common/conversation/ConversationDao.cpp:165-189 | a recall takes the message off what everybody has to read, and exactly the rows that show it last show it recalled |
| `Receipts.SendExact` | common/conversation/ConversationDao.cpp:49-111 | a send brings back deleted rows, shows the message in every member's row, and gives all but the sender one more to read; no other row changes |
| `Receipts.RecountMeans` | common/conversation/ConversationDao.cpp:150-160 | the recount is the number of messages of others, not recalled, that the owner has not read |
| `MessageStore.SingleIdIsPair` | common/message/ConversationId.cpp:19-23 | two users share one conversation whoever writes first, and with nobody else |
| `Absence.UntoldIsAbsent` | common/conversation/ConversationDao.cpp:97-111 | over every run, the messages of a conversation that an owner's row was not told about are exactly those sent while the owner was not among the members, since the last recount of the row |
| `Absence.StoredCountExact` | common/conversation/ConversationDao.cpp:256-273 | over every run and for every row, unread_count plus the unread messages sent while the owner was absent since the last recount is the recount, so the two agree if and only if there are none |
| `Absence.PresentCountsRight` | common/conversation/ConversationDao.cpp:97-111 | whoever was a member at every send of the conversation, or at every one since their row was last recounted, has the right count |
| `Absence.LateJoinerMiscounts` | common/conversation/ConversationDao.cpp:256-273 | a run in which somebody who joins between two messages has a stored count of one and a recount of two |
| `Absence.RejoinerMiscounts` | common/conversation/ConversationDao.cpp:97-111 | a run in which a member who leaves and comes back, with a row all along, has a stored count of two and a recount of three |
| `IdempotentSend.AtMostOneSend` | common/dao/MessageDao.cpp:39-52 | from any state that meets the invariant, at most one send transaction per (from_user_id, non-zero client_sequence_id) |
| `IdempotentSend.IdempotentSends` | message_service/src/MessageServiceImpl.cpp:151-217 | for any interleaving and any cache contents, at most one send transaction per pair, and every OK reply for the pair carries the same message id |
| `MessageServices.UpsertMembers` | common/conversation/ConversationDao.cpp:89-111 | the loop over members does what the one simultaneous upsert of the transaction does |
| `MessageServices.MessageService.FindBySequence` | common/dao/MessageDao.cpp:69-77 | finds the row of the pair, or there is none unless the query failed |
| `MessageServices.MessageService.FindPersisted` | message_service/src/MessageServiceImpl.cpp:151-163 | whatever the cache says, a found id is really a row of the pair |
| `MessageServices.MessageService.CommitNew` | message_service/src/MessageServiceImpl.cpp:187-211 | the transaction commits, or its insert fails and the id of an earlier send of the pair is replayed if there is one, or it fails; any statement may fail and a failed commit may stand. If none fails, it fails only for an id that is taken |
| `MessageServices.MessageService.SendAccepted` | message_service/src/MessageServiceImpl.cpp:151-222 | an OK reply names a stored message of this sender and sequence, committed by this call or by an earlier one; without a fault and with a fresh id the reply is OK |
| `MessageServices.MessageService.SendFresh` | message_service/src/MessageServiceImpl.cpp:171-222 | the part behind the duplicate check |
| `MessageServices.MessageService.CommitAndCache` | message_service/src/MessageServiceImpl.cpp:187-222 | the transaction and the cache entry behind it |
| `MessageServices.MessageService.SendSingleMessage` | message_service/src/MessageServiceImpl.cpp:133-223 | refused with each code if and only if: a user is missing or both are the same; the text is empty; it is too long; a user is unknown; they are not friends both ways. Otherwise it is the accepted send; refused requests change nothing |
| `MessageServices.MessageService.SendGroupMessage` | message_service/src/MessageServiceImpl.cpp:225-314 | refused with each code if and only if: sender or group is missing; the text is empty; it is too long; the sender is unknown; there is no such group; the sender is no member. Otherwise it is the accepted send to every member listed; refused requests change nothing |
| `MessageServices.MessageService.AckMessage` | message_service/src/MessageServiceImpl.cpp:349-379 | the checks in order, permission denied exactly to whom the message was not sent or who has left the group conversation; on OK one transaction has stamped the delivery and marked the offline row acknowledged and nothing else, and a refused request changes nothing |
| `MessageServices.MessageService.MarkMessageRead` | message_service/src/MessageServiceImpl.cpp:423-445 | the checks in order, permission denied exactly to whom the message was not sent or who has left the group conversation; on OK one transaction has read this message alone and recounted |
| `MessageServices.MessageService.MarkConversationRead` | message_service/src/MessageServiceImpl.cpp:447-473 | the checks in order, not found exactly without an undeleted row; on OK one transaction has read exactly what is not behind the cursor, and the row counts what is behind it |
| `MessageServices.MessageService.RecallMessage` | message_service/src/MessageServiceImpl.cpp:496-545 | the checks in order, then message, event, recount and preview in one transaction on OK, which lowers exactly the counts the message was in |
| `MessageServices.MessageService.RecallFound` | message_service/src/MessageServiceImpl.cpp:516-540 | the code for each way the transaction can end; one that finds the message recalled answers so if it can read it again, and ALREADY_RECALLED is only answered for a recalled message |
| `Selection.Select` | common/dao/MessageDao.cpp:93-97 | ORDER BY ... LIMIT: the first so many rows of a set, each once, in order, and before all the rest |
| `Pagination.ListConversationMessages` | common/dao/MessageDao.cpp:79-99 | the newest matching rows, newest first |
| `Pagination.Reverse` | message_service/src/MessageServiceImpl.cpp:335-335 | reversal in place |
| `Pagination.ListPage` | message_service/src/MessageServiceImpl.cpp:328-344 | the newest messages older than the cursor, in order of time and then id, 50 or up to 100 as asked; has_more exactly when older ones remain; the cursor is the first message |
| `Pagination.ResumeExact` | common/dao/MessageDao.cpp:86-92 | the next request continues exactly behind the page if and only if the cursor's time is positive |
| `Pagination.ZeroTimeRepeats` | common/dao/MessageDao.cpp:86-92 | with time zero the same page comes back |
| `Pagination.ReadAll` | message_service/src/MessageServiceImpl.cpp:328-344 | a client that follows the cursor, with any page sizes and with messages arriving between fetches, stops, having read every message present at the start exactly once, in order, and nothing that is not stored |
| `OfflineMessages.ToHex` | common/dao/OfflineMessageDao.cpp:11-20 | computes the hex form |
| `OfflineMessages.FromHex` | common/dao/OfflineMessageDao.cpp:29-40 | computes the bytes of well-formed hex, and nothing for anything else |
| `OfflineMessages.HexRoundTrip` | common/dao/OfflineMessageDao.cpp:11-40 | every payload comes back from its stored form |
| `OfflineMessages.HexAlphabet` | common/dao/OfflineMessageDao.cpp:11-20 | the sixteen digits written, in lower case |
| `OfflineMessages.HexEitherCase` | common/dao/OfflineMessageDao.cpp:22-27 | upper case is read as lower case |
| `OfflineMessages.TableIsHistory` | common/dao/OfflineMessageDao.cpp:57-116 | after any run of inserts, pulls and acks: a row for exactly the messages inserted, acknowledged exactly when an ack followed an insert, holding the payload of the last insert before that ack |
| `OfflineMessages.CreatedIsFirst` | common/dao/OfflineMessageDao.cpp:57-66 | the time a row is ordered by is that of its first insert |
| `OfflineMessages.OfflineMessageDao.InsertOfflineMessage` | common/dao/OfflineMessageDao.cpp:57-66 | one insert event; an acknowledged row is not changed |
| `OfflineMessages.OfflineMessageDao.MarkBatchAsPulled` | common/dao/OfflineMessageDao.cpp:93-104 | one pull event for the whole batch |
| `OfflineMessages.OfflineMessageDao.MarkAsAcked` | common/dao/OfflineMessageDao.cpp:112-116 | one ack event |
| `OfflineMessages.OfflineMessageDao.ListOfflineMessages` | common/dao/OfflineMessageDao.cpp:68-76 | the user's stored messages that are not acknowledged, by the time they were first stored and then id, none left out while there is room, each with the payload last stored |
| `OfflineMessages.OfflineMessageDao.PullOfflineMessages` | message_service/src/MessageServiceImpl.cpp:387-414 | with any requests of others between listing and marking, hands out and marks exactly the parsable messages of the page of oldest waiting ones, as many as asked for within the limit, or nothing if the transaction fails; what was handed out still waits for its ack |
| `OfflineMessages.ParsableIs` | message_service/src/MessageServiceImpl.cpp:401-409 | what is handed out is every message of the page that parses and nothing else |
| `OfflineMessages.PullKeepsWaiting` | common/dao/OfflineMessageDao.cpp:72-104 | pulling takes nothing off the list of waiting messages |
| `Bytes.AppendBigEndian` | common/websocket/WebSocketFrame.cpp:35-40 | appends the low bytes of the value, highest first |
| `Bytes.ReadBigEndian` | common/websocket/WebSocketFrame.cpp:27-33 | the value of the bytes, modulo 64 bits |
| `Bytes.WriteRead` | common/protocol/PacketHeader.cpp:10-30 | reading back a value that was written in enough bytes |
| `Bytes.ReadWrite` | common/protocol/PacketHeader.cpp:10-30 | writing back what was read gives the same bytes |
| `Bytes.XorTurns` | common/websocket/WebSocketFrame.cpp:121-125 | masking a byte turns exactly the bits that are set in the key's byte |
| `Buffers.Buffer.constructor` | common/net/Buffer.cpp:13-16 | an empty queue |
| `Buffers.Buffer.Retrieve` | common/net/Buffer.cpp:34-41 | takes the front off the queue; 8 <= reader <= writer <= size |
| `Buffers.Buffer.RetrieveAll` | common/net/Buffer.cpp:43-46 | empties the queue |
| `Buffers.Buffer.RetrieveAsString` | common/net/Buffer.cpp:48-53 | returns and takes the front |
| `Buffers.Buffer.Append` | common/net/Buffer.cpp:63-67 | appends at the back, whatever sliding or growing it takes |
| `Buffers.Buffer.EnsureWritableBytes` | common/net/Buffer.cpp:69-74 | room without changing the readable bytes |
| `Buffers.Buffer.HasWritten` | common/net/Buffer.cpp:84-87 | takes over bytes stored behind the writer |
| `Buffers.Buffer.MakeSpace` | common/net/Buffer.cpp:134-144 | growing and sliding change neither the readable bytes nor their order |
| `Buffers.SlideDown` | common/net/Buffer.cpp:140-143 | the overlapping copy moves the bytes unchanged |
| `Buffers.Buffer.ReadFd` | common/net/Buffer.cpp:89-112 | the two-segment read appends exactly the bytes read |
| `Buffers.Buffer.WriteFd` | common/net/Buffer.cpp:114-124 | what the kernel took followed by what stays is what was readable |
| `Streams.ChunkingIrrelevant` | gateway/src/GatewayServer.cpp:98-117 | for every byte stream and every stable decoder, any chunking gives the same outputs, the same remaining bytes and the same verdict as decoding at once |
| `PacketCodec.HeaderRoundTrip` | common/protocol/PacketHeader.cpp:34-56 | a decoded header is the encoded one |
| `PacketCodec.HeaderBytes` | common/protocol/PacketHeader.cpp:34-56 | every sixteen bytes encode what they decode to |
| `PacketCodec.HeaderLayout` | common/protocol/PacketHeader.cpp:34-56 | which bytes each header field is read from, high byte first |
| `PacketCodec.MessageTypes` | common/protocol/MessageType.cpp:49-78 | the eighteen types, one by one |
| `PacketCodec.WireFormat` | common/protocol/PacketCodec.cpp:27-72 | for every sixteen bytes and more what is decoded or reported, byte by byte: the letters NIMB, version 1, a body of at most a mebibyte, a known type, in this order |
| `PacketCodec.RoundTrip` | common/protocol/PacketCodec.cpp:9-56 | an encoded packet decodes to itself and consumes exactly its bytes, whatever follows |
| `PacketCodec.DecodesOnlyEncodings` | common/protocol/PacketCodec.cpp:27-72 | decode succeeds if and only if the stream begins with some encoded packet, and returns that packet |
| `PacketCodec.StrictPrefixIncomplete` | common/protocol/PacketCodec.cpp:31-49 | no strict prefix of a packet is decided |
| `PacketCodec.VerdictStable` | common/protocol/PacketCodec.cpp:27-72 | a packet or an error is not changed by the bytes that follow |
| `PacketCodec.EncodePacket` | common/protocol/PacketCodec.cpp:9-25 | encodes exactly the valid packets, decodably, and throws the right error on the others |
| `PacketCodec.DecodeFrom` | common/protocol/PacketCodec.cpp:27-56 | consumes one packet, nothing when incomplete, everything on a bad header |
| `WebSocketFrame.MaskTwice` | common/websocket/WebSocketFrame.cpp:121-125 | masking twice gives the payload back |
| `WebSocketFrame.ApplyMask` | common/websocket/WebSocketFrame.cpp:121-125 | the in-place loop turns in byte i exactly the bits that are set in byte i mod 4 of the key |
| `WebSocketFrame.EncodeFrame` | common/websocket/WebSocketFrame.cpp:135-166 | the encoder is the frame format, and the payload stands masked at the end of a masked frame |
| `WebSocketFrame.DecodeFrame` | common/websocket/WebSocketFrame.cpp:53-133 | the decoder is the format's decision function, and a payload is the bytes at the end of its frame, unmasked with the four before them if the frame is masked |
| `WebSocketFrame.PayloadOnWire` | common/websocket/WebSocketFrame.cpp:105-130 | the same for every stream |
| `WebSocketFrame.FirstByte` | common/websocket/WebSocketFrame.cpp:53-103 | which first bytes are accepted, the opcode each one means, and that a control frame carries at most 125 bytes |
| `Transport.FrameAnswers` | gateway/src/GatewayServer.cpp:129-145 | what each first byte of a complete client frame leads to: text and close end the connection, each with its reason, a ping is answered with its payload, a pong is taken |
| `WebSocketFrame.RoundTrip` | common/websocket/WebSocketFrame.cpp:53-166 | a frame followed by anything decodes to its payload and consumes exactly its bytes, if and only if it has a known opcode that is no continuation, at most 125 bytes when it is control, and less than 2^63 bytes |
| `WebSocketFrame.StrictPrefixIncomplete` | common/websocket/WebSocketFrame.cpp:53-133 | every strict prefix of such a frame is INCOMPLETE |
| `WebSocketFrame.VerdictStable` | common/websocket/WebSocketFrame.cpp:53-133 | OK and PROTOCOL_ERROR are not changed by the bytes that follow |
| `FrameForms.DecodesOnlyFrames` | common/websocket/WebSocketFrame.cpp:53-133 | a stream decodes as OK if and only if it begins with a frame a peer accepts, its length written in any of the three forms that holds it |
| `FrameForms.TakenIsEncoding` | common/websocket/WebSocketFrame.cpp:84-100 | the bytes taken are what the encoder writes for that frame if and only if the length is in its minimal form |
| `FrameForms.LongLengthAccepted` | common/websocket/WebSocketFrame.cpp:84-100 | a concrete frame with a longer length than section 5.2 of RFC 6455 allows is accepted |
| `WebSocketFrame.DecodeFrom` | common/websocket/WebSocketCodec.cpp:7-22 | consumes one frame, nothing when incomplete, everything on an error |
| `Transport.EndToEnd` | common/protocol/PacketCodec.cpp:9-56 | a reader of any part of an encoded stream, in any chunks, has decoded exactly the complete packets, in order, and holds the beginning of the next |
| `Transport.WholeStream` | gateway/src/GatewayServer.cpp:98-117 | a reader of the whole stream has decoded every packet and holds nothing |
| `Transport.TransportEquivalence` | gateway/src/GatewayServer.cpp:98-165 | masked binary frames of whole packets with pings and pongs among them, in any chunks, hand the router the same packets as the raw stream in any chunks, and every ping is answered in order |
| `Gateway.RoutePackets` | gateway/src/GatewayServer.cpp:98-117 | the packet loop outputs what unlimited decoding would, cut where the limiter first refuses |
| `Gateway.OnTcpMessage` | gateway/src/GatewayServer.cpp:98-117 | as the packet loop; a refusal drops what is buffered |
| `Gateway.OnFrame` | gateway/src/GatewayServer.cpp:129-163 | what each opcode does |
| `Gateway.OnWebSocketMessage` | gateway/src/GatewayServer.cpp:119-165 | the frame loop outputs what unlimited decoding would, cut where the limiter first refuses; unless the connection failed the buffer is on a frame boundary, so a refusal does not throw the frames out of step |
| `Resync.RoutedWereEncoded` | common/protocol/PacketCodec.cpp:27-72 | for every byte stream, the bytes a reader has consumed are exactly the encodings of the packets it has routed |
| `Resync.InStepIff` | gateway/src/GatewayServer.cpp:103-106 | after bytes are dropped, the rest of a packet stream decodes to the packets from the m-th on, all and nothing else, if and only if what came before is exactly the packets before the m-th |
| `Refusal.ReadOnAfterRefusal` | gateway/src/GatewayServer.cpp:103-106 | a refused call drops every byte read so far; the rest of the stream is then routed as the packets from the m-th on, all and nothing else, if and only if the bytes read up to the refusal are exactly the packets before the m-th |
| `Refusal.OneByteLost` | common/protocol/PacketCodec.cpp:58-72 | a reader that has lost the first byte of any packet reports a bad magic number, whatever follows |
| `Refusal.OutOfStep` | gateway/src/GatewayServer.cpp:103-106 | a concrete stream of three packets: refused with one packet and a byte of the next buffered, the remaining bytes are reported as a bad header |
| `GatewaySession.FindHeaderEnd` | gateway/src/GatewayServer.cpp:176-177 | the first end of a request header, or none |
| `GatewaySession.Session.HandleRead` | gateway/src/GatewayServer.cpp:74-96 | each read adds what unlimited decoding of the buffered bytes would output, cut where the limiter first refuses; over all reads, while nothing was refused, outputs, buffer and verdict are those of the whole stream so far, decoded at once |
| `GatewaySession.Session.TryHandshake` | gateway/src/GatewayServer.cpp:175-195 | waits if and only if there is no header end within 8192 bytes, gives up if and only if there is none in more, and otherwise answers and goes on behind the first one |
| `GatewaySession.NeverLooksLikeGet` | gateway/src/GatewayServer.cpp:15-17 | no part of an encoded packet stream is taken for a handshake |
| `TcpConnections.TcpConnection.Send` | common/net/TcpConnection.cpp:67-73 | while connected a message is taken on whole, unless the kernel fails it with nothing pending; otherwise nothing changes |
| `TcpConnections.TcpConnection.SendInLoop` | common/net/TcpConnection.cpp:211-255 | kernel bytes followed by pending bytes are the accepted messages, none torn; a fault drops the whole message; write interest is on exactly while bytes are pending |
| `TcpConnections.TcpConnection.HandleWrite` | common/net/TcpConnection.cpp:158-187 | moves a front part of the pending bytes to the kernel; half-closes exactly when drained while disconnecting |
| `TcpConnections.TcpConnection.BeginShutdown` | common/net/TcpConnection.cpp:75-80 | a shutdown becomes due only from CONNECTED |
| `TcpConnections.TcpConnection.ShutdownInLoop` | common/net/TcpConnection.cpp:364-372 | on a connection not yet closed the write side is shut only when every accepted byte is with the kernel; in general that holds if and only if the connection is not closed or nothing is pending |
| `TcpConnections.LateShutdown` | common/net/TcpConnection.cpp:75-80 | a run in which a shutdown that runs after the close half-closes with a byte pending |
| `TcpConnections.TcpConnection.HandleClose` | common/net/TcpConnection.cpp:189-200 | closing keeps the accounting of bytes |
| `TcpConnections.TcpConnection.ForceClose` | common/net/TcpConnection.cpp:82-87 | due from CONNECTED and DISCONNECTING only |
| `TcpConnections.TcpConnection.ForceCloseInLoop` | common/net/TcpConnection.cpp:374-379 | closes unless still connecting |
| `TcpConnections.PeerDecodes` | common/net/TcpConnection.cpp:158-255 | a peer reading any part of the kernel's bytes in any chunks decodes exactly the first packets sent, and all of them once nothing is pending |
| `EventLoops.WakeupIff` | common/net/EventLoop.cpp:50-92 | over all interleavings, at poll with functors pending the eventfd is readable or some thread is between its push and its write if and only if the loop has swapped its queue once or another thread has pushed or asked it to quit; at poll and told to quit it is always so |
| `EventLoops.NoLostWakeup` | common/net/EventLoop.cpp:50-92 | in every run in which the owner queued nothing before the loop started: at poll with functors pending or told to quit, the eventfd is readable or some thread is between its push and its write |
| `EventLoops.EarlyPushSleeps` | common/net/EventLoop.cpp:83-92 | a functor the owner queues before the loop starts leaves the loop asleep with it pending |
| `EventLoops.RunOnceInOrder` | common/net/EventLoop.cpp:142-156 | what has run, what is about to run and what is pending is, in that order, exactly what was pushed |
| `EventLoops.ServedBeforeNextPoll` | common/net/EventLoop.cpp:142-156 | everything pushed before a swap has run by the next poll |
| `EventLoops.QuitFlag` | common/net/EventLoop.cpp:50-74 | over all interleavings, the loop is told to quit if and only if somebody asked for it and loop() was not entered since; the loop ends only then |
| `EventLoops.ExitIff` | common/net/EventLoop.cpp:56-56 | a turn ends the loop if and only if a quit was asked for since loop() was entered |
| `EventLoops.EarlyQuitForgotten` | common/net/EventLoop.cpp:54-54 | a run in which a quit asked for before loop() is forgotten |
| `EventLoops.WakesUp` | common/net/EventLoop.cpp:126-140 | from poll with functors pending, once the loop has swapped its queue or another thread has pushed or asked it to quit, the poll can return now or after one write that can go ahead |
| `EventLoopThreads.EventLoop.QueueInLoop` | common/net/EventLoop.cpp:83-92 | with everybody else running in between, on return the functor has its own new place among those that ran, are about to run or are pending, and the loop is not asleep with functors pending |
| `EventLoopThreads.EventLoop.DoPendingFunctors` | common/net/EventLoop.cpp:142-156 | everything pushed before the call has run, in order, while others go on pushing |
| `EventLoopThreads.EventLoop.RunFunctor` | common/net/EventLoop.cpp:151-153 | one functor runs, and may queue more |
| `EventLoopThreads.EventLoop.HandleChannels` | common/net/EventLoop.cpp:59-61 | handlers may queue; the wakeup handler reads the eventfd |
| `EventLoopThreads.EventLoop.Turn` | common/net/EventLoop.cpp:54-64 | one turn: if told to quit before it the loop exits, and if it does not exit everything pushed before the turn has run when it ends |
| `EventLoopThreads.EventLoop.Loop` | common/net/EventLoop.cpp:50-66 | any number of turns; the loop exits only when told to, and what was pushed before it has run after one turn |
| `TokenBuckets.TokenBucket.constructor` | common/ratelimit/TokenBucket.cpp:7-11 | a full bucket of the capacity and rate asked for, 1 for zero capacity and for a rate that is not positive |
| `TokenBuckets.TokenBucket.RefillLocked` | common/ratelimit/TokenBucket.cpp:34-39 | refills by the time elapsed, up to capacity, never backwards |
| `TokenBuckets.TokenBucket.Allow` | common/ratelimit/TokenBucket.cpp:13-22 | grants exactly when the refilled bucket holds enough, and takes that many |
| `TokenBuckets.LevelIsAllowance` | common/ratelimit/TokenBucket.cpp:13-39 | after any calls on a full bucket, what it can give at any later time is exactly what every window ending then has left of capacity plus rate times its length |
| `TokenBuckets.GrantedIff` | common/ratelimit/TokenBucket.cpp:13-22 | a call is granted if and only if it fits that allowance for every window that ends with it |
| `TokenBuckets.RateBound` | common/ratelimit/TokenBucket.cpp:13-39 | in any window of calls at most capacity plus rate times its length is granted |
| `RateLimiters.RateLimiter.PruneLocked` | common/ratelimit/RateLimiter.cpp:50-59 | erasing while iterating removes exactly the idle entries |
| `RateLimiters.RateLimiter.Allow` | common/ratelimit/RateLimiter.cpp:27-48 | decides and updates as specified; the map never exceeds max_bucket_count |
| `RateLimiters.PruneTransparentFromStart` | common/ratelimit/RateLimiter.cpp:27-59 | from an empty limiter: if every key of a run refills within the idle time less the skew, the limiter decides every call as one that never forgets, unless it finds the map full |
| `RateLimiters.PruneTransparent` | common/ratelimit/RateLimiter.cpp:27-59 | the same from any state that agrees with the reference |
| `PruneExact.PruneVisible` | common/ratelimit/RateLimiter.cpp:50-59 | for every limits and skew: if a key's bucket does not refill within the idle time less the skew, some clocked run on that key from a fresh limiter, which never finds the map full, is decided differently by a limiter that never forgets |
| `PruneExact.TransparentIff` | common/ratelimit/RateLimiter.cpp:27-59 | so forgetting is invisible on every clocked run over given keys that never finds the map full if and only if the limiter has room for no bucket or each key's bucket refills within the idle time less the skew |
| `RateLimiters.SkewMatters` | common/ratelimit/RateLimiter.cpp:27-48 | a run of two calls from a fresh limiter, with idle times rate equal to capacity, that a limiter which never forgets decides differently, because the last use is stamped before the bucket reads its clock |
| `RateLimiters.PerMinuteRefills` | common/ratelimit/RateLimiter.cpp:7-10 | login buckets refill within a minute |
| `RateLimiters.PerSecondRefills` | common/ratelimit/RateLimiter.cpp:12-20 | message and packet buckets refill within a second |
| `MessageIds.OrIsSum` | common/message/MessageIdGenerator.cpp:51-51 | on 64-bit words, shifting and or-ing the fields is adding them |
| `MessageIds.PackFields` | common/message/MessageIdGenerator.cpp:51-51 | the fields can be read back, so packing is injective |
| `MessageIds.PackOrder` | common/message/MessageIdGenerator.cpp:51-51 | on one node packing preserves and reflects the order of (time, sequence) |
| `MessageIds.RangeExact` | common/message/MessageIdGenerator.cpp:51-51 | the 42-bit range is exact: one step past it packing starts over |
| `MessageIds.MessageIdGenerator.WaitNextMs` | common/message/MessageIdGenerator.cpp:59-65 | stops behind the first reading past the last time or before the epoch |
| `MessageIds.MessageIdGenerator.PastLast` | common/message/MessageIdGenerator.cpp:26-33 | whatever the clock says after the wait, the time used is past the last one: that reading if it is, and one more than the last time if not |
| `MessageIds.MessageIdGenerator.NextId` | common/message/MessageIdGenerator.cpp:19-52 | for any clock readings the id is greater than every id issued before and carries the node, while the time is within 42 bits of the epoch; its time is the reading, or the last time with the next sequence while that one lasts |
| `MessageIds.MessageIdGenerator.constructor` | common/message/MessageIdGenerator.cpp:14-17 | the node is the id, or 1023 for every greater one |
| `MessageIds.DisjointGenerators` | common/message/MessageIdGenerator.cpp:14-51 | generators with different effective nodes never share an id |
| `MessageIds.SharedId` | common/message/MessageIdGenerator.cpp:14-17 | generators with the same effective node issue the same id on the same first reading; all ids from 1023 up are one node |
| `ConnectionManagers.ConnectionManager.AddConnection` | common/gateway/ConnectionManager.cpp:11-23 | a new id, indexed nowhere |
| `ConnectionManagers.ConnectionManager.RemoveConnection` | common/gateway/ConnectionManager.cpp:25-40 | keeps the index the function of history it is |
| `ConnectionManagers.ConnectionManager.BindUser` | common/gateway/ConnectionManager.cpp:42-79 | succeeds exactly for a known connection, a user and a device; the pair then leads to it, and told to close is exactly the other connection that by the history held the pair |
| `ConnectionManagers.BindKeeps` | common/gateway/ConnectionManager.cpp:53-75 | after a bind, (user, device) leads to c exactly when c made the most recent bind of the pair and was neither removed nor bound again |
| `ConnectionManagers.RemoveKeeps` | common/gateway/ConnectionManager.cpp:27-39 | the same after a removal |
| `ConnectionManagers.IndexedOnce` | common/gateway/ConnectionManager.cpp:42-79 | a connection is indexed under at most one pair |
| `ConnectionManagers.ConnectionManager.GetContextsByUserId` | common/gateway/ConnectionManager.cpp:114-124 | one context for each of the user's indexed devices |
| `ConnectionManagers.ConnectionManager.OnlineUserCount` | common/gateway/ConnectionManager.cpp:148-151 | the number of users with an indexed connection, in terms of history |
| `Preview.Utf8SafePrefixLength` | common/conversation/ConversationServiceHelper.cpp:10-27 | the loop computes the safe length |
| `Preview.BuildPreview` | common/conversation/ConversationServiceHelper.cpp:31-34 | a prefix within the limit, for every byte string |
| `Preview.Utf8IsCharacter` | common/conversation/ConversationServiceHelper.cpp:19-25 | every code point as section 3 of RFC 3629 encodes it is one character with the length its lead byte announces |
| `Preview.LongestWholePrefix` | common/conversation/ConversationServiceHelper.cpp:10-34 | for text made of whole characters the preview is the longest prefix of whole characters that fits |

## Left out

- TLS: the encrypted paths of `TcpConnection` and everything under `common/tls`.
- Client code of MySQL, Redis, Kafka and gRPC, connection pools and reconnects: replaced by the contracts above.
- Authentication, tokens, password hashing and the WebSocket accept key: whether a handshake is acceptable is an input.
- Admin cleanup: it deletes receipts and acknowledged rows, which deliberately changes the histories used here.
- `GatewayOnlineManager` and `OnlineStatusManager`: the list of online devices is an input of each push.
- `GatewayRouter`, metrics, tracing, logging, configuration, timers and the poller.
- Conversation listing, pinning, muting and previews of recalled messages beyond the unread count.
- Data races: each event-loop handler, and each call of the rate limiter with its bucket, is one atomic step; the buckets' being shared objects is not modelled.
- Rounding: token buckets are over real numbers.
- GatewaySession.Session.HandleRead: ties the outputs of all reads together only while no packet was refused by the limiter; what a refusal does to the rest of a raw stream is `Refusal.ReadOnAfterRefusal`. A close takes effect at once, where the source queues it in the loop.
- GatewaySession.Session.TryHandshake: how a handshake that arrives in several reads meets the 8192-byte limit is left to the chunks.
- TokenBuckets.LevelIsAllowance: calls that ask for no tokens are not in the history, because they do not touch the bucket.
- Cluster.OutboxWorker.RunOnce: claims any due event; that it is the oldest is `OutboxDaos.OutboxDao.ClaimPendingEvents`, whose rows have the ordering columns.
- Cluster.OutboxWorker.TryClaim: leaves open which due event is claimed, as `RunOnce` does.
- Scenarios.RecallOverwritten: a configuration that allows no retry is not covered.
- Drain.DrainTerminates: one worker owns all partitions, nothing else is produced to them, and groups do not change, while it drains; `DrainMany.TeamCompletes` has several workers.
- Drain.DrainCompletes: as `Drain.DrainTerminates`.
- DrainMany.TeamCompletes: nothing but the team's own retries is produced to the partitions, they are not reassigned, and groups do not change, while it drains.
