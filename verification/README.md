# Mini-IM: replication, durable intents and crash-safe transfer

Mini-IM is a messenger built on a replicated log.  The server keeps one densely numbered event stream
per user; every device projects that stream, out of order and at its own pace, into a local store; every
client write is stored first and retried until the server's recorded answer arrives.  This project models
that machinery and proves what it is for.

* **Server** (`server_*.dfy`, `sync_event_table.dfy`): conversations, members, messages, deliveries, read
  counters, receipts, recall, burning, purging and confirmation as one database.  `ServerRepos` holds the
  imperative repositories, each proved equal to a function of `ServerState`; `ServerRun` proves the
  invariant, and what is never undone, over every run of those functions, and `ServerEffects` what each
  operation achieves and when it is refused.
* **Store and sync** (`state_store`, `convergence`, `local_store`, `history_paging`, `sync_*`,
  `client_sync`, `historic`, all `.dfy`): projection, incremental counting, catch-up, confirmation.
  `SyncSystem` runs the whole server with any number of devices over a network that loses, repeats,
  delays and reorders; `SyncAgreement` compares what device and server then hold.  `Historic` deals with
  what makes this hard: the server rewrites stored events (redaction) after some devices have copied them.
* **Exactly-once writes** (`control_writes`, `control_stores`, `sqlite_db`): the outbox, the deduplicating
  executor and nested savepoints, as classes and as a protocol with crashes on both sides.
* **Upload and download** (`transfers`, `upload_*`, `download_*`): disk, row, lease and buffer as four
  copies of one position, over every run and up to completion; the scheduler and the verified sink.
* **Bounded machinery** (`framing`, `write_queue`, `web_*`): framing, the write queue, the web store.

Where the source updates things in place the model is a class with the same fields, and its methods are
proved against functions about which the lemmas then speak.  Fresh ids, times, query order, the outcome of
a commit, the size of a single write and every network or crash event are inputs, so each theorem covers
all of their choices.

Two results differ from what one might expect of the code:

* A completed upload need not have published its file.  The id of its file message is not reserved
  against ordinary sends, and completion writes no note when any message already has that id.
  `UploadSystem.CompletedIffPublished` proves that a completed upload's one message is its own file note
  if and only if every ordinary send under that id came after completion;
  `UploadCompletion.SquattedUpload` is the failing run, for every file and text.
* A user who left does not receive receipts and recalls meant for current members, so the agreement
  theorems speak of the conversation description, unread counts and the user's own position, and do not
  claim that a returning user sees a recall that was missed.

## Model

| member | source | states |
|---|---|---|
| StateStore.Project | client/core/sync/statestore.cpp:167-262 | projection is refused exactly for an event kind the store does not support; the closed forms of `Convergence` pin what it writes |
| StateStore.CursorUnique | client/core/sync/statestore.cpp:306-317 | at most one number is the contiguous cursor of a set of seen positions |
| StateStore.UnreadOutside | client/core/sync/statehistory.cpp:77-119 | projection never moves a message across the unread boundary outside the two sets the incremental formula queries |
| StateStore.IncrementalUnread | client/core/sync/statestore.cpp:264-328 | for every event of every kind and every table, minus-before plus-after is exactly the full recount of the next table and never goes negative, so the mismatch branch is dead |
| StateStore.ReceiptClearsInterval | client/core/sync/statehistory.cpp:77-119 | after the user's own receipt, the interval it covered holds nothing unread |
| Convergence.RegisterStep | client/core/sync/statestore.cpp:167-262 | in any arrival order each last-writer-wins slot (position, count, delivery, conversation, file) keeps holding the highest-ranked claim taken so far |
| Convergence.TerminalsStep | client/core/sync/statestore.cpp:147-165 | recall and burn marks exist exactly for the messages whose recall or burn has been taken, in any order |
| Convergence.MessagesStep | client/core/sync/statestore.cpp:147-165 | a stored message is its event with recall, burn and blanking applied exactly when those were taken, whether they came before or after it |
| Convergence.AcceptStep | client/core/sync/statestore.cpp:276-304 | an event of a well-formed stream is never refused, and taking it keeps table and seen set in closed form |
| Convergence.BatchClosedForm | client/core/sync/statestore.cpp:264-328 | the same for a whole batch, repetitions included |
| Convergence.RunClosedForm | client/core/sync/statestore.cpp:264-328 | the same for any sequence of batches drawn from one stream |
| Convergence.RecountFromView | client/core/sync/statehistory.cpp:50-75 | the full recount reads nothing but the view, so stores with equal views have equal totals |
| Convergence.Converge | client/core/sync/statestore.cpp:147-328 | any two orders, batchings and duplications of the same event set give the same view, seen set and unread total |
| LocalStore.AdvanceCursor | client/core/sync/statestore.cpp:306-317 | the loop stops at the greatest k with 1..k all seen, and never moves back |
| LocalStore.RecountByConversation | client/core/sync/statehistory.cpp:50-75 | counting group by group gives the recount over the whole table |
| LocalStore.MiniImStateStore.Take | client/core/sync/statestore.cpp:276-304 | one event of a batch: stored exactly once, position and id both unique, running total still the recount |
| LocalStore.MiniImStateStore.Apply | client/core/sync/statestore.cpp:264-328 | all of the batch or nothing: on failure contents, cursor and total are the old ones; on success the contents are the fold of the batch, the cursor is contiguous and the cached total is the recount |
| LocalStore.MiniImStateStore.UnreadTotal | client/core/sync/statehistory.cpp:50-75 | computes and caches the full recount |
| LocalStore.MiniImStateStore.HasGap | client/core/sync/statestore.cpp:456-460 | true exactly when some seen position lies beyond the cursor |
| LocalStore.MiniImStateStore.SaveConfirmation | client/core/sync/statestore.cpp:419-429 | accepted exactly with a request id, nothing pending, and a cursor above the confirmed one and within the contiguous one |
| LocalStore.MiniImStateStore.CompleteConfirmation | client/core/sync/statestore.cpp:431-451 | only the pending request moves the confirmed cursor, to the cursor it named, never backwards |
| HistoryPaging.SlotOrder | client/core/sync/statehistory.cpp:18-35 | the (seq, id) key is a strict total order |
| HistoryPaging.Visit | client/core/sync/statehistory.cpp:121-224 | the bounded query returns the nearest rows strictly beyond the boundary, in visiting order |
| HistoryPaging.HasBeyond | client/core/sync/statehistory.cpp:193-217 | the edge probe answers exactly whether a message lies beyond that edge |
| HistoryPaging.Collect | client/core/sync/statehistory.cpp:156-192 | the loop keeps one page in ascending order for either direction and remembers whether a row was left over |
| HistoryPaging.MessagePage | client/core/sync/statehistory.cpp:121-224 | refused exactly for bad arguments; otherwise the page is the interval of the sorted list next to the boundary and hasOlder/hasNewer are exactly the existence of a message beyond each edge |
| HistoryPaging.OlderWalkCovers | client/core/sync/statehistory.cpp:121-224 | walking older from the latest visits each message of the conversation once and concatenates to the sorted list |
| HistoryPaging.NewerWalkCovers | client/core/sync/statehistory.cpp:121-224 | walking newer from the oldest page rebuilds the same list |
| ServerStreams.RedactOk | server/storage/repo/sync_event.py:60-82 | redaction keeps the stream order rules every client relies on |
| ServerStreams.LatestRedact | server/storage/repo/sync_event.py:60-82 | redaction commutes with taking the latest claim of any slot |
| ServerMembership.AnnounceReaches | server/storage/repo/conversation_repo.py:90-110 | announcing to a superset of the members makes every member's latest event describe the conversation as it now is |
| ServerMembership.CreateKeeps | server/storage/repo/conversation_repo.py:141-244 | creation (or its replay for a known client id) keeps the whole server invariant and tells every member |
| ServerMembership.RenameKeeps | server/storage/repo/conversation_repo.py:246-277 | rename, every refusal included, keeps the invariant and announces |
| ServerMembership.AddKeeps | server/storage/repo/conversation_repo.py:279-324 | adding restores each member's preserved read position, keeps the invariant and announces |
| ServerMembership.JoinKeeps | server/storage/repo/conversation_repo.py:326-361 | the same for joining, the already-a-member case included |
| ServerMembership.RemoveKeeps | server/storage/repo/conversation_repo.py:363-403 | removal preserves read positions, keeps the invariant and announces, also to the removed |
| ServerMembership.LeaveKeeps | server/storage/repo/conversation_repo.py:405-449 | leaving preserves the position, hands ownership on, keeps the invariant and announces |
| ServerMessages.TopAfter | server/storage/repo/message_repo.py:112-117 | one past the largest number becomes the largest, in that conversation only |
| ServerMessages.AppendKeeps | server/storage/repo/message_repo.py:98-249 | a new message keeps numbering, deliveries, counters, streams and all other invariants, also for a sender who is no longer a member |
| ServerReceipts.ReadsAfter | server/storage/repo/delivery_repo.py:75-108 | marking (old, new] keeps "read_at is set exactly up to the read position" for every row |
| ServerReceipts.RangeRebuild | server/storage/repo/read_state.py:8-21 | rebuilding counters over (old, new] only leaves the table a full rebuild would give |
| ServerReceipts.UnlistedCount | server/storage/repo/delivery_repo.py:75-86 | only messages the newly-read query lists change their unread count |
| ServerReceipts.CountsEmitted | server/storage/repo/read_state.py:53-63 | after one count event per changed message, every recipient's latest count is the counter's |
| ServerReceipts.ReceiptKeeps | server/storage/repo/delivery_repo.py:37-164 | a receipt, refused, repeated, clipped or advancing, keeps the whole invariant |
| ServerBurn.PurgedIdempotent | server/storage/repo/sync_event.py:47-57 | purging content twice is purging it once |
| ServerBurn.RecallKeeps | server/storage/repo/delivery_repo.py:166-227 | recall burns every row, redacts every stored copy and keeps the invariant |
| ServerBurn.SettleFlags | server/storage/repo/delivery_repo.py:256-307 | marking a message recalled once its last row is burned restores recalled-iff-all-burned |
| ServerBurn.SweepKeeps | server/storage/repo/delivery_repo.py:229-307 | the burn sweep, over rows in any order, keeps the invariant |
| ServerBurn.NeverEarly | server/storage/repo/delivery_repo.py:229-307 | a row the sweep burns was listed, not yet burned and due; nothing else about any row changes |
| ServerBurn.PurgeKeeps | server/storage/repo/delivery_repo.py:309-356 | the purge keeps the invariant |
| ServerConfirm.ConfirmKeeps | server/storage/repo/sync_repo.py:64-106 | a confirmation keeps the whole invariant |
| ServerConfirm.OnlyCovered | server/storage/repo/sync_repo.py:64-106 | a row turns delivered only from sent, only for the confirming user, and only if the confirmed prefix carries its message |
| ServerConfirm.DeliverAllReaches | server/storage/repo/sync_repo.py:82-99 | every listed row has left the sent status |
| ServerConfirm.FileKeeps | server/services/file/service.py:202-242 | a file event always carries a version above all earlier ones of its file |
| ServerProgress.AppendProgress | server/storage/repo/message_repo.py:98-249 | sending only adds: no event, status, position, flag or cursor is taken back |
| ServerProgress.ReceiptProgress | server/storage/repo/delivery_repo.py:37-164 | the same for receipts: statuses and positions only rise |
| ServerProgress.ConfirmProgress | server/storage/repo/sync_repo.py:64-106 | the same for confirmations: the applied cursor only rises |
| ServerRun.StepKeeps | server/storage/repo/delivery_repo.py:37-356 | any one operation, logins of new users included, from any good state reaches a good state |
| ServerRun.RunKeeps | server/storage/repo/read_state.py:24-29 | over any run the invariant holds, statuses only rise sent, delivered, read, positions and cursors never fall and streams only grow or lose bodies |
| ServerRun.ReadState | server/storage/repo/delivery_repo.py:75-108 | in every reachable state a non-sender row is read exactly up to that user's position (member row, or history after leaving), which never exceeds the conversation's largest number |
| ServerRun.CountersRebuilt | server/storage/repo/read_state.py:8-21 | in every reachable state the counter table equals one rebuilt from nothing |
| ServerRun.RecalledIffBurned | server/storage/repo/delivery_repo.py:166-356 | in every reachable state a message is recalled exactly when all its rows are burned, has at least one row, and is purged only then |
| ServerRun.RedactedEverAfter | server/storage/repo/sync_event.py:60-82 | once a user's row is burned, every later state of that user's stream shows the message without a body |
| ServerRun.DenseNumbers | server/storage/repo/message_repo.py:112-117 | message numbers of a conversation are exactly 1..top |
| ServerRun.SendOrder | server/storage/repo/message_repo.py:112-117 | in every run a message keeps its number and every later message of its conversation has a larger one than all before it |
| ServerRun.ConfirmedDelivered | server/storage/repo/sync_repo.py:64-106 | no message event at or below an applied cursor is still sent for its user, and the cursor lies within the stream |
| ServerEffects.CreateVerdict | server/storage/repo/conversation_repo.py:141-244 | a known client id changes nothing and is acknowledged, unknown users are refused unless there is no user yet, everything else is created |
| ServerEffects.CreateEffect | server/storage/repo/conversation_repo.py:141-244 | owner and listed users are exactly the members, exactly they are told, no other conversation or position changes |
| ServerEffects.RenameEffect | server/storage/repo/conversation_repo.py:246-277 | refused exactly to anyone but the group's owner; otherwise exactly the members hear of the new title |
| ServerEffects.AddEffect | server/storage/repo/conversation_repo.py:279-324 | all the listed newcomers join or none; exactly the members after it are told |
| ServerEffects.JoinEffect | server/storage/repo/conversation_repo.py:326-361 | a known user joins an existing group, a member stays as is, every reader keeps their position |
| ServerEffects.LoginThenJoin | server/storage/repo/conversation_repo.py:63-74 | whoever has logged in, at any time, can join any group, and no user is forgotten |
| ServerEffects.RemoveEffect | server/storage/repo/conversation_repo.py:363-403 | exactly the listed members other than the owner leave; everyone who was a member is told |
| ServerEffects.LeaveVerdict | server/storage/repo/conversation_repo.py:405-449 | refused exactly to strangers, outside groups and to the last member |
| ServerEffects.LeaveEffect | server/storage/repo/conversation_repo.py:405-449 | only the leaver goes, a leaving owner is succeeded by the first member listed, all former members are told |
| ServerEffects.LeaveThenJoin | server/storage/repo/conversation_repo.py:343-350 | joining undoes leaving: the same members and every member's read position as before |
| ServerEffects.SendRows | server/storage/repo/message_repo.py:152-194 | one delivery row per member, read for the sender and sent for the rest; no other row changes |
| ServerEffects.SendEvents | server/storage/repo/message_repo.py:218-236 | each member's stream gains exactly that message with its number and unread count, nobody else's changes |
| ServerEffects.ReceiptVerdict | server/storage/repo/delivery_repo.py:37-74 | refused exactly to non-members, and effective exactly if it moves the position on |
| ServerEffects.ReceiptReads | server/storage/repo/delivery_repo.py:75-108 | after an accepted receipt exactly the others' messages up to the requested number, capped at the last one, are read by this user |
| ServerEffects.ReceiptTwice | server/storage/repo/delivery_repo.py:64-74 | receipts are idempotent: the same or any lower one afterwards is acknowledged and changes nothing |
| ServerEffects.ReceiptEvents | server/storage/repo/delivery_repo.py:144-164 | every member's stream gains the receipt right after what it held |
| ServerEffects.RecallEffect | server/storage/repo/delivery_repo.py:166-210 | accepted from the sender only and once; afterwards every row of that message is burned and no other row changed |
| ServerEffects.RecallEvents | server/storage/repo/delivery_repo.py:188-227 | every user's stored copies of it lose their body, other entries stay, and exactly the members hear of it |
| ServerEffects.SweepRows | server/storage/repo/delivery_repo.py:229-307 | the sweep burns exactly the listed rows that were due |
| ServerEffects.PurgeRows | server/storage/repo/delivery_repo.py:309-356 | the purge blanks exactly the listed messages that were purgeable and touches no delivery row |
| ServerEffects.ConfirmVerdict | server/storage/repo/sync_repo.py:64-81 | refused exactly without a device or beyond the stream, and the applied cursor becomes the confirmed one exactly if that is higher |
| ServerEffects.ConfirmRows | server/storage/repo/sync_repo.py:82-99 | afterwards a row is past sent exactly if it was before or the confirmed prefix carries its message |
| ServerRepos.AppendRows | server/storage/repo/sync_event.py:20-44 | one event at the end of each distinct recipient's stream |
| ServerRepos.RedactRows | server/storage/repo/sync_event.py:60-82 | the update loop redacts exactly the chosen users' copies of one message |
| ServerRepos.AppendCounts | server/storage/repo/read_state.py:53-63 | the loop emits each changed count to that message's recipients |
| ServerRepos.InsertDeliveries | server/storage/repo/message_repo.py:152-194 | the insert loop gives one delivery row per member, the sender's read and the others' sent |
| ServerRepos.UniqueOutside | server/storage/repo/conversation_repo.py:54-61 | the list loop keeps the first occurrence of each non-empty id not already present |
| ServerRepos.MiniImRepos.AppendMessage | server/storage/repo/message_repo.py:98-249 | the whole database becomes the specified successor, for which `AppendKeeps` holds |
| ServerRepos.MiniImRepos.ApplyReceipt | server/storage/repo/delivery_repo.py:37-164 | database and answer are the specified ones for the list of newly read messages it computes itself |
| ServerRepos.MiniImRepos.ApplyRecall | server/storage/repo/delivery_repo.py:166-227 | database and answer are the specified ones, in all refusals too |
| ServerRepos.MiniImRepos.SelectDue | server/storage/repo/delivery_repo.py:229-255 | only due rows, each once, and all of them unless the limit is reached |
| ServerRepos.MiniImRepos.CollectDueBurns | server/storage/repo/delivery_repo.py:229-307 | burns exactly the rows it returns, all of them due, and settles their messages |
| ServerRepos.MiniImRepos.SelectPurgeable | server/storage/repo/delivery_repo.py:309-326 | only purgeable messages, and all of them below the limit |
| ServerRepos.MiniImRepos.PurgeBurnedContent | server/storage/repo/delivery_repo.py:309-356 | purges exactly the messages it returns, in the rows and in every stored event |
| ServerRepos.MiniImRepos.SelectSent | server/storage/repo/sync_repo.py:82-92 | lists exactly the rows still sent that the newly confirmed part of the stream covers |
| ServerRepos.MiniImRepos.ConfirmApplied | server/storage/repo/sync_repo.py:64-106 | database and answer are the specified ones, a stale or too large cursor included |
| ServerRepos.MiniImRepos.EnsureUser | server/storage/repo/conversation_repo.py:63-74 | a login adds the user once and changes nothing else |
| ServerRepos.MiniImRepos.CreateConversation | server/storage/repo/conversation_repo.py:141-244 | database and answer are the specified ones, replays and unknown users included |
| ServerRepos.MiniImRepos.RenameConversation | server/storage/repo/conversation_repo.py:246-277 | database and answer are the specified ones |
| ServerRepos.MiniImRepos.AddMembers | server/storage/repo/conversation_repo.py:279-324 | database and answer are the specified ones |
| ServerRepos.MiniImRepos.JoinConversation | server/storage/repo/conversation_repo.py:326-361 | database and answer are the specified ones |
| ServerRepos.MiniImRepos.RemoveMembers | server/storage/repo/conversation_repo.py:363-403 | database and answer are the specified ones |
| ServerRepos.MiniImRepos.LeaveConversation | server/storage/repo/conversation_repo.py:405-449 | database and answer are the specified ones |
| SyncEventTable.RowHolds | server/storage/repo/sync_event.py:20-44 | in the physical table each of 1..n occurs for a user, with that entry of the stream |
| SyncEventTable.NumbersDiffer | server/storage/repo/sync_event.py:20-44 | no number is used twice by one user, and numbers rise in insertion order |
| SyncEventTable.MaxSeq | server/storage/repo/sync_event.py:24-28 | the maximum over a user's rows is the length of the user's stream |
| SyncEventTable.RedactedStream | server/storage/repo/sync_event.py:60-82 | updating rows in place is redacting the streams they hold |
| SyncEventTable.SyncEventStore.AppendSyncEvents | server/storage/repo/sync_event.py:20-44 | numbering by maximum keeps every stream dense and appends one entry for each distinct user |
| SyncEventTable.SyncEventStore.RedactMessageEvents | server/storage/repo/sync_event.py:60-82 | bodies change in place, numbers do not |
| SyncPaging.LoadEvents | server/storage/repo/sync_repo.py:26-62 | the first `limit` rows after the cursor that match the conversation filter |
| SyncPaging.HandleSyncRequest | server/services/sync/service.py:23-76 | page, hasMore and new cursor from one extra row, for any limit, cursor and filter |
| SyncPaging.DensePage | server/services/sync/service.py:23-76 | over a dense stream those are exactly a slice, and hasMore exactly that the slice stops short |
| SyncPaging.PageReaches | server/services/sync/service.py:23-76 | a page skips nothing; a last page reaches the end and any other moves the cursor on |
| ClientSync.CursorGrows | client/core/sync/statestore.cpp:306-317 | more seen positions never lower the cursor |
| ClientSync.ConfirmationCompletes | client/core/sync/coordinator.cpp:137-214 | pump and answer raise the confirmed cursor to the named one and clear the intent; with nothing to confirm nothing is sent |
| ClientSync.ConfirmationSurvives | client/core/sync/coordinator.cpp:137-178 | after a crash the saved confirmation goes out again with its own id and cursor |
| Historic.ServedCopies | server/storage/repo/sync_event.py:60-82 | any two copies of a stream's entries, served at different times and redacted in between, are compatible |
| Historic.CompleteRegister | client/core/sync/statestore.cpp:167-262 | whoever took every position holds, in each last-writer-wins slot, the stream's latest claim, whichever copies were taken |
| Historic.MessagesMeet | client/core/sync/statestore.cpp:147-165 | two stores that took the same positions agree on every message but for what redaction removed, and entirely once it has ended |
| SyncSystem.StepKeeps | client/core/sync/coordinator.cpp:70-308 | every server operation, delivery, duplicate, crash, start, request and confirmation keeps the joint invariant |
| SyncSystem.ConfirmationChain | client/core/sync/statestore.cpp:408-451 | in every run: confirmed <= applied on the server <= client cursor <= stream length, for every device |
| SyncSystem.DeliveredIsHeld | server/storage/repo/sync_repo.py:64-106 | a delivered row means some device of that user holds the message at a stream position its contiguous cursor covers |
| SyncSystem.ReadyMeansComplete | client/core/sync/coordinator.cpp:257-308 | readiness is signalled only with every event the server had when it produced that response |
| SyncSystem.NeverRefused | client/core/sync/coordinator.cpp:223-255 | in every run no delivered batch is refused or stops a running client |
| SyncAgreement.LatestEverywhere | client/core/sync/statestore.cpp:167-262 | a caught-up store holds exactly the stream's latest claim in every last-writer-wins slot |
| SyncAgreement.AgreeOnConversation | server/storage/repo/conversation_repo.py:90-110 | a caught-up device has the server's title, owner and members of every conversation of its user |
| SyncAgreement.AgreeOnCount | server/storage/repo/read_state.py:53-63 | a caught-up device has the server's unread count of every message delivered to its user |
| SyncAgreement.AgreeOnPosition | server/storage/repo/conversation_repo.py:481-486 | a caught-up device has its user's own read position, also after leave and rejoin |
| SyncAgreement.DevicesMeet | client/core/sync/statestore.cpp:167-262 | in every run two devices of one user that saw the same positions agree on every last-writer-wins slot |
| SyncAgreement.CatchUpStep | client/core/sync/coordinator.cpp:257-308 | an answer either completes the client or strictly moves its request cursor |
| SyncAgreement.CatchUpCompletes | client/core/sync/coordinator.cpp:104-121 | against a fixed stream the request loop terminates ready, with everything and no gap |
| SyncCoordinator.MiniImSyncCoordinator.RequestNext | client/core/sync/coordinator.cpp:104-121 | sends one request from the current cursor exactly when running and none is outstanding |
| SyncCoordinator.MiniImSyncCoordinator.Apply | client/core/sync/coordinator.cpp:223-255 | the batch is stored, or the coordinator stops with the store as it was |
| SyncCoordinator.MiniImSyncCoordinator.HandleResponse | client/core/sync/coordinator.cpp:257-308 | the fields become those of the client step over which the runs are proved |
| SyncCoordinator.MiniImSyncCoordinator.PumpConfirmation | client/core/sync/coordinator.cpp:137-178 | the same for the confirmation pump |
| SyncCoordinator.MiniImSyncCoordinator.HandleConfirmationResult | client/core/sync/coordinator.cpp:180-214 | the same for its result, and claims exactly the answer to the outstanding confirmation |
| ControlWrites.ReplayIsSilent | server/storage/repo/control_write_repo.py:34-73 | a repeated request returns the recorded answer and changes nothing, whatever its body would do now |
| ControlWrites.Head | client/core/session/writestore.cpp:105-110 | the head is the first pending row in enqueue order |
| ExactlyOnce.StepKeeps | client/core/session/writestore.cpp:60-156 | enqueue, send, serve, drop, duplicate, crash and acknowledge keep the protocol invariant |
| ExactlyOnce.AtMostOnce | server/storage/repo/control_write_repo.py:34-73 | over every run no request is executed twice |
| ExactlyOnce.InEnqueueOrder | client/core/session/writecoordinator.cpp:121-161 | over every run a device's executed writes are a prefix of its enqueue order |
| ExactlyOnce.SettledMeansRecorded | client/core/session/writestore.cpp:132-156 | a row is settled only if the server recorded it, with the same operation and payload and the matching verdict |
| ExactlyOnce.NeverRewritten | server/storage/repo/control_write_repo.py:34-73 | a recorded answer is never changed |
| ExactlyOnce.LateDuplicate | server/storage/repo/control_write_repo.py:34-73 | however late a duplicate is served, the tables stay and the reply is the recorded one |
| ExactlyOnce.SettledForGood | client/core/session/writestore.cpp:140-143 | a settled row never changes again |
| ExactlyOnce.BusinessFollowsLog | server/storage/repo/control_write_repo.py:34-73 | over every run the business tables change exactly at the logged first executions, in log order, each time to what that callback left |
| ExactlyOnce.HeadExecutes | client/core/session/writecoordinator.cpp:121-161 | one undisturbed send of the head executes it if it never was, answers it, and changes no other record |
| ExactlyOnce.HeadSettles | client/core/session/writestore.cpp:132-156 | its final answer settles exactly that row and moves the head on, except that a success without an entity id stops the client |
| ControlStores.MiniImControlWriteStore.EnqueueWrite | client/core/session/writestore.cpp:60-103 | new row, the existing row, or a refusal that changes nothing |
| ControlStores.MiniImControlWriteStore.NextPending | client/core/session/writestore.cpp:105-110 | the first pending row, if any |
| ControlStores.MiniImControlWriteStore.Acknowledged | client/core/session/writestore.cpp:132-156 | settles the one pending row it names, leaves settled rows alone, reports unknown ids and missing entity ids |
| ControlStores.MiniImControlWriteCoordinator.Pump | client/core/session/writecoordinator.cpp:121-161 | sends the head and only the head, and not again while its attempt is recent |
| ControlStores.MiniImControlWriteCoordinator.HandleResult | client/core/session/writecoordinator.cpp:163-182 | an answer settles its row and nothing else and the next head goes out at once; a broken one stops the coordinator with the rows unchanged |
| ControlStores.ControlWriteRepo.ExecuteWrite | server/storage/repo/control_write_repo.py:34-73 | for any callback, nested blocks and raised errors included, the durable tables are the old ones or exactly the executor's result for the callback's meaning, and there is no answer exactly if the callback raised or the commit failed |
| SqliteDb.MiniImSqliteDb.Nested | server/storage/sqlite/db.py:28-47 | a nested block that raises restores its caller's state and leaves its caller's savepoints open |
| SqliteDb.MiniImSqliteDb.Transaction | server/storage/sqlite/db.py:28-47 | the durable value changes only if the outermost block completes and commits, and no savepoint is left open |
| SqliteDb.RaisedBlockVanishes | server/storage/sqlite/db.py:28-47 | a caught raising block is as if it had never run |
| SqliteDb.CompletedBlockInlines | server/storage/sqlite/db.py:28-47 | nesting a completed block changes nothing |
| Transfers.OperationsMove | server/storage/repo/file_repo.py:120-281 | each operation keeps 0 <= received <= size, identity and settled states, and raises the version on any change |
| Transfers.RunMoves | server/storage/repo/file_repo.py:120-281 | over any sequence completed and cancelled are absorbing and an equal version means an equal row |
| UploadSystem.ReconcileMeets | server/services/file/service.py:358-370 | afterwards the file is as long as the row says and both are a prefix of the source |
| UploadSystem.CommitOk | server/quic/server.py:339-366 | one committed chunk is exactly the next bytes of the source, on disk, in the row and in the lease |
| UploadSystem.StepOk | server/services/file/service.py:202-343 | init, bind, data, flush with any failure between write, fsync and commit, truncation, crash, cancel and finish keep the upload invariant |
| UploadSystem.UploadIsSound | server/services/file/service.py:202-343 | in every run the first min(disk, received) bytes are the source's, and a completed upload is exactly the source's bytes, which are the declared content |
| UploadSystem.CompletedLength | server/services/file/service.py:267-343 | a completed row's received count is the length of the content its digest stands for |
| UploadSystem.GrantMeets | server/quic/server.py:604-646 | a granted lease starts where file, row and source agree |
| UploadSystem.OnlyTheOwnerCommits | server/quic/server.py:299-403 | received bytes grow only through the stream bound to the current lease, and only by the source's next bytes |
| UploadSystem.FencedStreamIsInert | server/quic/server.py:258-308 | a late flush of a stream whose lease was taken over touches nothing but that stream, and never the new owner's lease |
| UploadSystem.TerminalForGood | server/storage/repo/file_repo.py:196-281 | a completed or cancelled upload keeps its row and its announcements |
| UploadSystem.VersionsRise | server/storage/repo/file_repo.py:224-230 | announcements of a file carry strictly rising versions |
| UploadSystem.CompletedIffPublished | server/services/file/service.py:318-426 | over every run a completed upload has exactly one message under its id, and that is its own file note if and only if every ordinary send under the id came after completion; an uncompleted one has no note |
| UploadCompletion.SquattedUpload | server/services/file/service.py:399-426 | for every file and text: a text sent first under the id, then a faultless upload, is a run that ends completed with the file in place and no file note |
| UploadCompletion.FlushesReach | server/quic/server.py:339-366 | the flush loop commits the whole buffer, chunk by chunk, and keeps the invariant |
| UploadCompletion.AttemptCompletes | server/services/file/service.py:60-343 | from every reachable state that is neither completed nor cancelled, one undisturbed init, stream and finish completes the upload with the client's whole file, and writes its note exactly if no message has the id yet |
| UploadCompletion.FinishVerdict | server/services/file/service.py:267-343 | a finish completes exactly on full length and matching content, restarts from zero on a mismatch, does nothing when bytes are missing, and fails without a restart on the client's request |
| UploadRegistries.UploadRegistry.NextGeneration | server/quic/upload.py:29-31 | every connection gets a generation above all before it |
| UploadRegistries.UploadRegistry.Available | server/quic/upload.py:33-37 | the exact takeover condition |
| UploadRegistries.UploadRegistry.Release | server/quic/upload.py:64-67 | removes exactly that lease from both maps, and an outdated lease removes nothing |
| UploadRegistries.UploadRegistry.Grant | server/quic/upload.py:39-47 | one lease per intent: the old one goes, the new one starts unbound at its offset, the maps stay mirrors |
| UploadRegistries.UploadRegistry.BindStream | server/quic/upload.py:52-58 | binds exactly an unbound lease of that owner at its exact offset |
| UploadRegistries.UploadRegistry.Advance | server/quic/upload.py:60-62 | moves one lease's offset and keeps its stream and the mirrors |
| UploadRegistries.UploadRegistry.ReleaseOwner | server/quic/upload.py:69-72 | removes exactly the leases of one connection, or of one of its streams |
| UploadConnections.UploadStorage.WriteAll | server/services/file/service.py:220-229 | short writes are continued; on an error a prefix of the chunk is on disk |
| UploadConnections.UploadStorage.AppendFileChunk | server/services/file/service.py:202-242 | refused exactly on kind, state, emptiness or size; progress only from an exact disk length; a failed commit leaves the row |
| UploadConnections.UploadStorage.ReconcileUpload | server/services/file/service.py:358-370 | cuts the file to the shorter of the two and records that length, or leaves the row if the commit fails |
| UploadConnections.FlushChunks | server/quic/server.py:339-366 | bytes leave the buffer exactly as they are committed: buffer, lease, row and disk move together whatever fails |
| DownloadServer.DownloadScheduler.Start | server/quic/download.py:82-99 | ignores a running file, refuses exactly on a full queue or bad numbers or name, else adds one job with its header sent |
| DownloadServer.DownloadScheduler.Cancel | server/quic/download.py:101-107 | resets the file's stream and nothing else |
| DownloadServer.DownloadScheduler.ServeJob | server/quic/download.py:131-159 | under any acks, resets, cancels and starts during the read, exactly the chunk read goes out, FIN exactly on an empty chunk, unless closed, full or reset |
| DownloadServer.DownloadScheduler.Turn | server/quic/download.py:120-172 | at most 8 jobs and 128 KiB unacknowledged per stream whatever happens, nothing sent is taken back, and an undisturbed turn serves every open job once and drops every finished one |
| DownloadServer.SentOk | server/quic/download.py:143-159 | a chunk keeps "header then source[start..offset]" and the bound |
| DownloadServer.FinMeansWhole | server/quic/download.py:147-153 | a stream with FIN carried the header and all the rest of the file |
| DownloadClient.HeaderFront | client/core/file/coordinator.cpp:858-914 | the header is recognised exactly when complete, its id is the trimmed one, and the rest is the body |
| DownloadClient.DownloadStreamState.Receive | client/core/file/coordinator.cpp:858-914 | one arriving part: wait, drop, or name the file by its trimmed id and keep every body byte |
| DownloadClient.MiniImDownloadSink.OpenAt | client/core/file/downloadsink.cpp:21-47 | keeps exactly the resumed prefix, or refuses and keeps the staging file |
| DownloadClient.MiniImDownloadSink.Append | client/core/file/downloadsink.cpp:49-79 | all bytes or a failed, closed sink; never past the declared size; the target is untouched |
| DownloadClient.MiniImDownloadSink.Finish | client/core/file/downloadsink.cpp:81-124 | the target is replaced exactly by content of the declared size and digest, and only if the save commits |
| DownloadClient.CopyChunks | client/core/file/downloadsink.cpp:100-109 | the chunked copy is the staging file |
| DownloadClient.ReceiveStream | client/core/file/coordinator.cpp:858-946 | under any fragmentation and any timing of readiness, staging plus pending buffer is what was staged plus the body |
| DownloadClient.DownloadWhole | client/core/file/coordinator.cpp:858-981 | a scheduler stream ended with FIN, cut into any parts, resumed and finished, publishes exactly the server's file |
| DownloadClient.MiniImFileReceiver.FlushPending | client/core/file/coordinator.cpp:916-946 | all streams of a file go into its sink one after the other and are emptied, a refused append fails the file for good, and a failed file takes nothing more |
| DownloadClient.MiniImFileReceiver.FinishDownload | client/core/file/coordinator.cpp:963-981 | the target is replaced exactly by whole, matching content; anything else fails the file |
| Framing.BigEndian | client/core/session/sessionmanager.cpp:37-49 | the four length bytes read back as the length |
| Framing.RoundTrip | server/protocol/codec.py:21-39 | decoding undoes encoding for any list of payloads followed by anything |
| Framing.SplitIrrelevant | server/protocol/codec.py:26-39 | feeding parts gives what feeding the whole gives |
| Framing.AnyFragmentation | client/core/session/sessionmanager.cpp:374-425 | any split of whole frames and a proper prefix of another yields exactly the payloads in order and that prefix |
| Framing.FrameBuffer.DecodeFrames | server/protocol/codec.py:26-39 | the server's loop is the draining function, refusals included |
| Framing.ControlStream.HandleIncoming | client/core/session/sessionmanager.cpp:374-425 | the client's loop delivers the same items and restarts exactly on a refused size |
| WriteQueue.SqliteWriteQueue.Enqueue | server/storage/sqlite/write_queue.py:34-49 | the exact admission rule; a refusal changes nothing, an acceptance appends one entry and keeps both limits and the byte sum |
| WriteQueue.SqliteWriteQueue.RunNext | server/storage/sqlite/write_queue.py:59-76 | runs the oldest entry once; its outcome reaches only its own caller, if still waiting |
| WriteQueue.SqliteWriteQueue.WorkerLoop | server/storage/sqlite/write_queue.py:59-76 | drains everything in order whatever the operations do |
| WriteQueue.SqliteWriteQueue.Stop | server/storage/sqlite/write_queue.py:54-57 | returns only when every accepted operation has run once, in acceptance order, and no caller still waits |
| WriteQueue.RunEvents | server/storage/sqlite/write_queue.py:34-76 | over any mix of enqueues, cancellations, turns and stops what ran is 0, 1, 2, ... and ran plus queued is accepted |
| WebMessages.SortSorts | web/src/store/session.ts:78-80 | sorting gives an ordered permutation |
| WebMessages.SortOnce | web/src/store/session.ts:280-322 | sorting after each change or once at the end is the same |
| WebStore.BatchIsEach | web/src/store/session.ts:280-322 | a batch gives the lists, pending states and total of pushing its items one at a time |
| WebStore.PushKeeps | web/src/store/session.ts:296-312 | the total stays the recount and the clamp at zero never changes it |
| WebStore.ReadCounts | web/src/store/session.ts:376-393 | the counting loop counts exactly what leaves the unread set as the position rises |
| WebStore.ApplyKeeps | web/src/store/session.ts:323-393 | every update of every kind keeps the total equal to the recount |
| WebStore.RunKeeps | web/src/store/session.ts:277-393 | the same over any sequence of batches and updates from a consistent start |
| WebSession.SessionStore.PushMessages | web/src/store/session.ts:280-322 | over item and list objects: the batch builds new objects in new lists, shows exactly the specified batch, and leaves every cached map of every list right |
| WebSession.SessionStore.ApplyCount | web/src/store/session.ts:324-335 | the item object changes in place in the same list, and the cached maps of all lists stay right |
| WebSession.SessionStore.ApplyEnd | web/src/store/session.ts:345-373 | the item object found through the cached map changes in place, a copy of its list replaces it, and old and new list still agree with their maps |
| WebSession.SessionStore.ApplyReceipt | web/src/store/session.ts:375-393 | progress and total move on and a copy of the list replaces it |
| WebSession.SessionStore.ApplyMessageUpdated | web/src/store/session.ts:323-393 | each of the four branches shows exactly the specified update and keeps every cached map in agreement |
| WebSession.SessionStore.RunChanges | web/src/store/session.ts:277-393 | the same over any sequence of batches and updates, with the total equal to the recount from a consistent start |
| WebSession.CountNewlyRead | web/src/store/session.ts:376-393 | the loop counts the unread messages of others up to the new position |
| WebSession.SessionStore.MessageLookup | web/src/store/session.ts:82-92 | the map returned, cached or new, agrees with searching the list, and so do all others afterwards |
| WebSession.SessionStore.ChangeItem | web/src/store/session.ts:330-358 | assigning to an item object that keeps its id shows in its own conversation's list only and makes no cached map wrong, for replaced lists that still share the object as well |

## Left out

- Protobuf, JSON text, SQL text and SQLite itself: rows are datatypes, tables are maps and sequences, queries are set comprehensions; the savepoint nesting is kept.
- Losing a committed write-ahead log on power loss, and errors by which SQLite itself ends a transaction being caught further in.
- QUIC: ordered reliable bytes per stream are assumed (section 2.2 of RFC 9000), and connections may die at any point; the FIN-only send workaround is left out.
- Digests: a file's content stands for its digest, so collisions are not modelled.
- Fresh identifiers: new ids are inputs required to be unused; the event ids of a stream are a list fixed in advance of pairwise different non-empty ids.
- Member roles, trimming of ids in requests, timestamps inside event bodies and display fields; clocks and timers are inputs or steps that may happen at any time.
- The order of due-burn, receipt and confirmation query results: every order is allowed.
- Schema migrations, legacy rows and the legacy message-request check inside the control write executor.
- Login sessions, reconnection, the message outbox, the file task store and the offline maintenance tool, which repeat easier forms of what is proved.
- Message content validation, fault injection, logging, Qt signals and the web pages.
- UploadSystem.StepOk: the availability gate of file_init is not part of its steps, any owner may take over at any time, which covers more runs; the gate itself is `UploadRegistry.Available`.
- UploadSystem.StepOk: the text of the upload header is not parsed, binding takes a complete header.
- DownloadServer.DownloadScheduler.Turn: a job is a value in a map field, not an object shared with other code, and the wake-up event between turns is not modelled.
- WriteQueue.SqliteWriteQueue.RunNext: the rejection of coroutine results is left out.
- Framing.ControlStream.HandleIncoming: the early exit while the transport is stopping is left out.
- DownloadClient.HeaderFront: only ASCII white space is trimmed from an id, and ids that are not valid UTF-8 are not decoded.
- WebSession.SessionStore.PushMessages: the bootstrap that replaces all lists at once is left out; the theorems start from any store whose lists have no id twice.
- DownloadClient.MiniImDownloadSink.Finish: the save file either commits or leaves the target as it was.
- WebSession.SessionStore.ApplyMessageUpdated: sorting of the conversation list, file progress lists and default timestamps are left out.
- SyncAgreement.AgreeOnCount: nothing is claimed about recalls and receipts a user missed while not a member, because the server sends those to current members only.
- Historic.MessagesMeet: two devices may hold different bodies of one message when the server redacted it between the two deliveries and its recall or burn is not held yet.
