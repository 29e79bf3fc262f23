# Verified model of go-tiny-claw's stateful core

go-tiny-claw is a chat agent: adapters bring messages in, a gateway gives every
conversation its own worker, an engine builds the model's input within a token
budget and runs tools, and a session store keeps every fact in an append-only
log. This project models the parts of it whose correctness depends on state,
order or failure, and proves what they promise. `dafny verify dfyconfig.toml`
checks all of it.

## What is modelled

**The durable session log.** `Codec`, `Events`, `Replay` and `FileStore` follow
`internal/sessionstore`. A session file is a sequence of bytes. The record
encoder is a concrete small text form with the three facts the log needs: no
newline, reading undoes writing, and no strict prefix of a record is a record.
`SessionFile` is the cached state of one file with its committed offset, torn
tail, missing separator and pending rollback. Every system call of `Create`,
`Append`, `Load`, `Delete` and of the recovery takes its outcome from a
parameter: a write may land partly, a truncate may report failure after it cut,
a close may fail last. `Durable()` is what a replay of the committed bytes
gives, and every contract speaks of it. `StoreRuns` puts the operations into
runs of any length under any pattern of failures, and `SharedFile` lets two
stores work on one file and one lock file. `MemoryStores` is the in-memory store
and its agreement with the file store. `Leases` is the lock table, `Sessions`
the open session and its service, `Processing` what a worker does with one
message of its session, `WorkingMemory` the recent part of a history.

**The context builder.** `Estimator`, `Turns`, `Truncation`, `Builder` and
`Engine` follow `internal/context` and `internal/engine`. Two loops, an anchor
search and a binary search are proved against short specifications: the
grammar of legal histories, the one grouping into turns, the longest suffix of
whole turns within the budget, and the largest truncation that fits. `Legality`
says message by message which histories are legal.

**The gateway protocol.** `Gateway` is a transition system whose steps are the
bodies under a lock and the channel operations of `internal/gateway`; its
results hold for every interleaving; `GatewayProgress` shows that a shutdown
can always run to its end, and `Eviction` when a worker gives up its
conversation. `Manager` is the same protocol as an object whose methods take
exactly those steps, and `Worker` is the worker's loop in its own form, with any
steps of other threads between any two of its own. `Dedup`, `Telegram`,
`Approval` and `Reporter` are the protocols around it: what is admitted twice,
what the polling offset passes, who may approve, and which report may overtake
an acceptance notice.

**Two text algorithms and a key.** `Framing`, `Responses`, `ResponseReader` and
`ReplyMap` follow the streaming reader of the Responses provider: lines to
frames, frames to events, events to items, items to one reply, and the reply to
a message. `Accumulation` tells what those items hold from the events alone.
`EditFile` is the four-level replacement of the edit tool, on top of `Strings`.
`RouteKeys` is the conversation key with a decoder that inverts it.

Class fields are the fields of the source's objects; fields marked ghost record
history for the contracts. Times are integers that only ever increase, and an
idle timer may fire whenever it is armed.

## What the proofs found

Where the code falls short of what one might expect of it, the model keeps the
code, shows an input, and states when the expectation is met.

- An `Append` without a lease may report an error although the batch is stored:
  exactly when everything succeeded but giving back its own lock
  (`StoreRuns.ErrorAfterCommit`, `FileStore.SessionFile.Append`).
- `Create` may report an error for a session that now exists: exactly when the
  link worked and the directory sync, the stat or the release of its own lock
  did not (`StoreRuns.ErrorAfterLink`, `FileStore.SessionFile.Create`).
- If the process ends while a rollback is pending, the next process sees those
  records of the refused batch that had landed whole. A batch that begins with
  a message shows exactly when its separator and first record had landed
  (`StoreRuns.FailedBatchAppears`, `FileStore.SessionFile.Restart`,
  `FileStore.ShownExactly`).
- A lease, or the lock of one operation, may end while a rollback is pending.
  Then another store can append and be told that its batch is stored, and the
  first store's next operation truncates that batch away, although no call
  fails any more (`SharedFile.AcknowledgedThenLost`, and from two fresh stores
  on `SharedFile.ExposedAndLost`). As long as no lock comes free over a pending
  rollback, two stores on one file never lose a batch either of them
  acknowledged (`SharedFile.Run`); that condition is exact.
- The retry after a context-length error shows no more than the first view in
  the action phase. In the thinking phase the first view is built with the
  tools and the retry without them, so it may show one request more
  (`Engine.ThinkingRetryCanGrow`, with the default policy and one small tool).
  It shows no more, whatever the history, exactly when its budget is no larger,
  or one of the budgets is too small for the views in question
  (`Engine.ThinkingRetryExactly`).
- Nobody compares the IDs of the calls in one reply. A reply with clashing IDs
  is accepted and stored, and the history can never be built again
  (`ReplyMap.AcceptedTurnIsLegalExactly`, `ReplyMap.ClashIsAccepted`,
  `Engine.ClashIsForever`).
- A turn that is canceled between the reply and the results of its calls leaves
  calls that are never answered; exactly these cuts are illegal, and the history
  stays so whatever is stored after them (`Engine.CutTurnExactly`,
  `Engine.PendingCallsAreForever`).
- The offset of the Telegram adapter is safe for batches in ascending order; an
  update behind a larger one is passed unread (`Telegram.OvertakenIsLost`, with
  `Telegram.OvertakenExample`).
- A request for approval cannot be doubled while it is live, but once a reply
  came too late its key can be registered again before the old Wait returned
  (`Approval.OneLivePerKey`, `Approval.ExpiredMayCoexist`).
- The edit tool's test for uniqueness counts occurrences that do not overlap
  (`EditFile.CountHidesOverlap`). A count of one means one occurrence in every
  text exactly when the old text does not start as it ends
  (`EditFile.CountOfOneIsUniqueExactly`).
- Only a text found twice as it is written is refused for that. One that is
  found more than once by the second or third level is edited all the same,
  exactly when one window of whole lines matches
  (`EditFile.WeakAmbiguityIsEdited`, `EditFile.WeakAmbiguityExactly`).
- Normalizing line ends is not complete on doubled carriage returns
  (`EditFile.NormalizedExactly`).
- The streaming reader dispatches a frame that the end of the stream left
  without a blank line, which section 9.2.6 of the WHATWG HTML Standard
  discards (`Framing.UndelimitedFrame`). It frames as the standard does exactly
  when the stream broke off, or nothing but the terminator is left pending
  (`Framing.StandardExactly`). A field name without its colon is ignored and an
  event name is trimmed of all blanks (`Framing.OtherLines`); on every other
  line both agree (`Framing.LineExactly`). A lone carriage return, a line end in the
  standard, is none for the reader.

## Model

| member | source | states |
|---|---|---|
| Codec.PrintNewlineFree | internal/sessionstore/file.go:94-103 | an encoded value never holds a newline, so one line is one record |
| Codec.ParsePrint | internal/sessionstore/file.go:94-103 | reading a printed value gives it back, with whatever follows left over |
| Codec.StrictPrefixNeverParses | internal/sessionstore/file.go:194-200 | a torn record is never mistaken for a record |
| Events.ApplyAllAppend | internal/sessionstore/store.go:65-99 | applying two batches one after the other is applying them together |
| Events.ApplyAllKeeps | internal/sessionstore/store.go:65-99 | events never change a session's ID nor lose a message, and the message count is the length of the history |
| Events.ApplyMessages | internal/sessionstore/store.go:65-99 | message events always apply to a created session, only add their messages, and change of the metadata only update time and message count |
| Events.CreationRebuilds | internal/sessionstore/store.go:100-112 | the creation batch of a snapshot replays to that snapshot whole, its metadata included, but for the update time and the message count |
| Events.ApplyAllIs | internal/sessionstore/store.go:65-99 | what any batch amounts to: its messages added in order, the last usage and the last metadata it carries, and of the metadata only update time and message count derived |
| Events.AppliesExactly | internal/sessionstore/store.go:65-99 | a batch applies exactly when each event has the version and the parts its kind needs and fits the ID that the events before it leave behind |
| Events.EventRoundTrip | internal/sessionstore/store.go:45-52 | every event survives encoding, with all optional parts |
| Events.RecordFacts | internal/sessionstore/file.go:94-103 | the three facts about a record: newline-free, parsed back, and no strict prefix parses |
| Events.Encode | internal/sessionstore/file.go:94-103 | the loop writes one line per event, or fails exactly when some tool arguments cannot be embedded |
| Replay.ReplayFile | internal/sessionstore/file.go:183-207 | the line loop computes the replay function: snapshot, committed offset, and corruption anywhere but in a torn tail |
| Replay.ReplayContinues | internal/sessionstore/file.go:183-207 | bytes after a committed prefix and its separator replay on top of it: records are neither merged nor hidden |
| Replay.TruncateToOffset | internal/sessionstore/file.go:183-207 | a file cut at the returned offset consists of complete records and replays to the same snapshot |
| Replay.ReplayCutLines | internal/sessionstore/file.go:183-207 | the lines of a batch cut at any byte replay to exactly the records that fit, and the offset ends with the last of them |
| Replay.AppendCommits | internal/sessionstore/file.go:324-330 | a batch behind a committed file, with a separator where one is missing, is wholly committed |
| Replay.CrashedAppend | internal/sessionstore/file.go:183-207 | if a crash cuts an append anywhere, replay succeeds with the old snapshot plus a prefix of the batch, ending at that prefix |
| FileStore.InterruptedAppend | internal/sessionstore/file.go:334-366 | whatever part of an append reached the file, a reader sees the old snapshot plus exactly the records that landed |
| FileStore.ShownExactly | internal/sessionstore/file.go:334-366 | something of the batch shows exactly when its separator and its first record have landed |
| FileStore.MessageShows | internal/sessionstore/store.go:83-87 | a batch that begins with a message changes the session once it shows |
| FileStore.SessionFile.FailCommit | internal/sessionstore/file.go:363-369 | a failed commit leaves the durable bytes as they were, with a rollback pending exactly when the recovery failed |
| FileStore.SessionFile.RecoverFailedCommit | internal/sessionstore/file.go:280-298 | recovery succeeds exactly when all its calls do, and the durable bytes are the same whether or not it does |
| FileStore.SessionFile.Reload | internal/sessionstore/file.go:252-275 | after a reload the cache equals the replay of the file |
| FileStore.SessionFile.EnsureLoaded | internal/sessionstore/file.go:232-275 | it succeeds exactly when every call it makes does; then the cache equals what is durable and no rollback is pending; the durable bytes never change |
| FileStore.SessionFile.WriteBatch | internal/sessionstore/file.go:345-362 | which bytes the file can hold after the write sequence stops at any call |
| FileStore.SessionFile.Commit | internal/sessionstore/file.go:331-376 | a commit publishes the whole batch, or leaves snapshot, offset and durable content as they were, with a rollback pending at worst |
| FileStore.SessionFile.AppendLocked | internal/sessionstore/file.go:312-376 | the same for the whole body behind the lock, together with the exact success condition |
| FileStore.SessionFile.Append | internal/sessionstore/file.go:300-377 | a batch is stored exactly when the lock is to be had, the session loads, the batch applies and every commit call made succeeds, and reported so exactly when the lock, if taken, is given back, never before it was written, synced and closed; otherwise nothing of it is durable |
| FileStore.SessionFile.Load | internal/sessionstore/file.go:378-398 | a load returns exactly what is durable and changes nothing durable |
| FileStore.SessionFile.Create | internal/sessionstore/file.go:104-179 | a session is published exactly when everything up to the link works, as the whole snapshot it was given, and reported without an error exactly when the sync, the stat and the release work too |
| FileStore.SessionFile.CreateLocked | internal/sessionstore/file.go:120-179 | the same for the body behind the lock: the published session is the given one, metadata included |
| FileStore.SessionFile.Delete | internal/sessionstore/file.go:437-466 | a leased session cannot be deleted; another one is removed exactly when nobody cancels, the lock is to be had and the removal works, with any pending rollback, and without an error exactly when sync and release work too |
| FileStore.SessionFile.MutationGuard | internal/sessionstore/lock.go:68-80 | an operation takes the file lock itself only when its store has no lease |
| FileStore.SessionFile.AcquireWriter | internal/sessionstore/lock.go:41-64 | a lease is taken exactly when nobody cancels, the store has none and the lock file is free |
| FileStore.SessionFile.ReleaseWriter | internal/sessionstore/lock.go:24-33 | the lease ends, and nothing durable changes |
| FileStore.SessionFile.ExternalChange | internal/sessionstore/file.go:246-251 | what a store believes survives a change by another process exactly when no rollback is pending or the bytes it keeps are still there |
| FileStore.SessionFile.Restart | internal/sessionstore/file.go:232-240 | a new process sees what was durable plus exactly the landed records of a batch whose rollback was pending; for a batch beginning with a message that is no change exactly when none had landed |
| StoreRuns.Perform | internal/sessionstore/file.go:104-398 | one operation changes the durable session exactly as its outcome says |
| StoreRuns.Run | internal/sessionstore/file.go:104-398 | over any run under a lease and any failures, the durable session is the successful batches in order, and every load shows just that |
| StoreRuns.RunsExtendHistory | internal/sessionstore/store.go:65-99 | over any run the ID stays and the history only grows at its end |
| StoreRuns.ErrorAfterCommit | internal/sessionstore/file.go:311 | a lease-less append whose release fails reports an error although its batch is durable |
| StoreRuns.ErrorAfterLink | internal/sessionstore/file.go:158-166 | a create whose directory sync fails reports an error although the session exists |
| StoreRuns.FailedBatchAppears | internal/sessionstore/file.go:358-369 | under a lease, a batch refused after a failing sync and rollback is there after the process ended |
| SharedFile.Perform | internal/sessionstore/file.go:104-466 | one operation of one of two stores keeps what it acknowledged, and leaves everything in order or the lock free over a pending rollback |
| SharedFile.Run | internal/sessionstore/lock.go:24-80 | as long as no lock comes free over a pending rollback, the session is exactly what either store kept, in order, and everything acknowledged was kept |
| SharedFile.AcknowledgedThenLost | internal/sessionstore/file.go:234-240 | wherever the lock came free over a pending rollback, the other store's next acknowledged batch is cut off the history by the first store's next load |
| SharedFile.ExposedAndLost | internal/sessionstore/file.go:300-376 | two stores on a fresh session, one failing append, one acknowledged append, one load: the history is empty again |
| MemoryStores.MemoryStore.AcquireWriter | internal/sessionstore/store.go:168-182 | the lock is given exactly when nobody holds it and nobody cancels |
| MemoryStores.MemoryStore.Release | internal/sessionstore/store.go:163-167 | a late release frees nobody else's lock |
| MemoryStores.MemoryStore.Create | internal/sessionstore/store.go:184-195 | an entry is stored exactly when there is none, or nothing changes |
| MemoryStores.MemoryStore.Append | internal/sessionstore/store.go:196-221 | a batch is applied as a whole, exactly when every event applies, or nothing changes |
| MemoryStores.MemoryStore.Delete | internal/sessionstore/store.go:251-261 | an entry is deleted exactly when nobody holds its lock, which is free again afterwards |
| MemoryStores.ApplyAllSameFacts | internal/sessionstore/store.go:65-99 | sessions that agree on history, usage and all metadata but update time and message count accept the same batches and still agree |
| MemoryStores.PerformUndisturbed | internal/sessionstore/file.go:104-398 | the file store when nothing fails: which operations succeed, and with what effect |
| MemoryStores.PerformInMemory | internal/sessionstore/store.go:184-234 | the same for the memory store |
| MemoryStores.PerformBoth | internal/sessionstore/store.go:184-234 | one undisturbed operation has the same outcome in both stores and keeps them in agreement |
| MemoryStores.RunBoth | internal/sessionstore/store.go:184-234 | over any undisturbed run the two stores cannot be told apart, but for update time and message count |
| Leases.LeaseTable.AcquireWriter | internal/sessionstore/lock.go:41-64 | across stores and processes a lease is given exactly when no lease and no operation holds the lock file |
| Leases.LeaseTable.Release | internal/sessionstore/lock.go:24-33 | only the first release of a lease does anything, so a late one leaves a successor's lease alone |
| Leases.LeaseTable.BeginOperation | internal/sessionstore/lock.go:68-80 | an operation runs under its store's lease or takes the lock file itself |
| Leases.LeaseTable.EndOperation | internal/sessionstore/lock.go:68-80 | it gives back exactly what it took |
| Leases.LeaseTable.Exclusive | internal/sessionstore/lock.go:24-80 | no two leases, and no lease and lease-less operation, protect a session at once |
| Sessions.Session.Append | internal/context/session.go:164-190 | a batch is added exactly when the session is open and the store takes it, and then in memory and store alike; after an error neither has changed |
| Sessions.Session.RecordUsage | internal/context/session.go:85-117 | each count is added to its own total, a cost when it is known, exactly when the session is open and the store takes it, in memory and in the store, or nowhere |
| Sessions.SessionService.Attach | internal/context/service.go:147-151 | an attached session mirrors the store and owns the lease |
| Sessions.SessionService.CreateSession | internal/context/service.go:77-91 | a created session is empty, open and leased, with the metadata and totals given; without failures it is created unless there is one; every failing path gives the lease back |
| Sessions.SessionService.LoadSession | internal/context/service.go:101-146 | an open session is shared, another one is opened with the stored history and totals; once the lease is had and the calls work, exactly when what is stored loads and the directory is there; every failing path gives the lease back |
| Sessions.SessionService.GetOrCreate | internal/context/service.go:153-162 | success gives the one open session, as stored or new; without failures there is one; failure leaves lease and cache as they were |
| Sessions.SessionService.Close | internal/context/session.go:147-161 | closing twice, or late, neither ends a successor's lease nor forgets the successor |
| Sessions.SessionService.Delete | internal/context/service.go:166-174 | an open session cannot be deleted |
| WorkingMemory.FindConversationStart | internal/context/session.go:217-230 | the latest ordinary user message up to the candidate, or the beginning |
| WorkingMemory.GetWorkingMemory | internal/context/session.go:195-213 | a suffix no shorter than asked for, legal when the history is, that starts a turn or is everything |
| WorkingMemory.MemoryIsWholeTurns | internal/context/session.go:195-230 | cut at an ordinary user message, the memory consists of whole turns of the history |
| Estimator.EstimateText | internal/context/estimator.go:17-32 | the loop over runes computes the weighted sum, rounded up |
| Estimator.EstimateMessage | internal/context/estimator.go:35-41 | a message costs its text, its calls and a fixed overhead |
| Estimator.EstimateMessages | internal/context/estimator.go:42-48 | the loop adds up the messages |
| Estimator.CharacterCosts | internal/context/estimator.go:17-32 | what one character costs, from the list of ASCII letters, digits and blanks, and that the sum is rounded up |
| Estimator.EnvelopeCosts | internal/context/estimator.go:35-41 | a message costs eight beside its texts, and each call more twelve beside its own |
| Estimator.TextBounds | internal/context/estimator.go:17-32 | a character costs between half a token and two |
| Estimator.QuartersConcat | internal/context/estimator.go:17-32 | before rounding the estimate is additive over concatenation |
| Estimator.TextTokensConcat | internal/context/estimator.go:17-32 | joined texts cost no less than either part and no more than both |
| Estimator.MessagesTokensConcat | internal/context/estimator.go:42-48 | the estimate of a list of messages is additive |
| Turns.Units | internal/context/builder.go:32-71 | the loop succeeds exactly on legal tool-call chains and then returns the turns |
| Turns.UnitAt | internal/context/builder.go:34-63 | one message with its results is accepted exactly when the history continues with a complete unit |
| Turns.CollectIds | internal/context/builder.go:44-50 | the pending set exists exactly when the call IDs are distinct and not empty |
| Turns.FlattenTurns | internal/context/builder.go:32-71 | flattening the turns gives back the history |
| Turns.TurnStarts | internal/context/builder.go:64-68 | every turn but perhaps the first starts with an ordinary user message, and holds no second one |
| Turns.GroupingIsUnique | internal/context/builder.go:32-71 | there is only one such grouping |
| Turns.SuffixOfTurns | internal/context/builder.go:32-71 | grouping the flattened suffix of turns gives exactly those turns |
| Turns.LegalFrom | internal/context/builder.go:32-71 | a legal history may be cut wherever no tool result stands |
| Turns.LegalConcat | internal/context/builder.go:32-71 | what follows a legal history is legal exactly when the whole is |
| Legality.LegalExactly | internal/context/builder.go:32-71 | a history is legal exactly when every call message is the assistant's, with distinct nonempty IDs and one result of the user for each behind it, and every result has such an owner |
| Turns.ShapeKeepsLegal | internal/context/builder.go:75-98 | rewriting contents, as truncation does, keeps legality |
| Turns.ShapeKeepsTurns | internal/context/builder.go:75-98 | and it keeps the grouping |
| Truncation.Truncate | internal/context/builder.go:75-98 | the binary search returns the longest excerpt that fits, or the bare marker, for exactly the tool results above the limit |
| Truncation.FewerCharactersFit | internal/context/builder.go:84-96 | the cost of a marked message is monotone in the characters kept |
| Truncation.WholeNeverFits | internal/context/builder.go:75-98 | a message that is too long loses at least one character |
| Truncation.TruncatedIsBest | internal/context/builder.go:75-98 | the result drops a character, fits whenever the bare marker does, and no larger one fits |
| Truncation.TruncatedIsShown | internal/context/builder.go:75-98 | only a tool result above the limit changes: it becomes a beginning, the marker and an end, of equal length or one more at the beginning, with something left out, within the limit or nothing but the marker, and no longer excerpt is within it |
| Builder.ShorterSuffixFits | internal/context/builder.go:140-153 | a shorter suffix of turns fits whenever a longer one does |
| Builder.StartIs | internal/context/builder.go:140-153 | the greedy loop's stopping point is the only place where the suffix fits and one more turn does not |
| Builder.StartIsLongest | internal/context/builder.go:140-153 | no longer suffix fits |
| Builder.Prepare | internal/context/builder.go:109-117 | every message of the copied history is as it should be shown, and the set is that of the tool results above the limit |
| Builder.LastAnchor | internal/context/builder.go:122-130 | the anchor search finds the last turn, or there is only one turn and it has no request |
| Builder.Select | internal/context/builder.go:122-153 | anchor and greedy loop select exactly the longest suffix within budget, with its exact cost |
| Builder.Assemble | internal/context/builder.go:154-170 | the messages are the system message and that suffix, and the count of truncated results is exact |
| Builder.Build | internal/context/builder.go:99-171 | Build succeeds exactly when the budget is positive, the history legal and system plus last turn fit; the result shows the end of the history, every message unchanged but the tool results above the limit, counts those, and reports window and budget |
| Builder.ViewIsLongestSuffix | internal/context/builder.go:99-171 | the view is the system message followed by the longest suffix of whole turns within budget, with exact counts |
| Builder.ViewShows | internal/context/builder.go:99-171 | behind the system message come the last messages of the history one for one, each shown as it should be, and the count is that of the shown tool results above the limit |
| Builder.ShownResultsFit | internal/context/builder.go:99-171 | no shown tool result costs more than the limit, unless the bare marker does |
| Builder.WindowBudgets | internal/context/policy.go:14-41 | the defaults, and the safety margin as the least number of tokens that is the percentage of the window |
| Builder.ViewIsLegal | internal/context/builder.go:99-171 | the view's messages are again a legal history with the same turns |
| Engine.AdjustedBudget | internal/engine/context.go:21-25 | the overhead arithmetic cancels: the inner build runs with exactly input minus tool overhead |
| Engine.BuildContext | internal/engine/context.go:15-39 | success keeps estimate plus overhead within the input budget, with all counts exact, and shows the history as Build does |
| Engine.Generate | internal/engine/context.go:47-70 | the result and the views in every case: one retry after each context-length error, with the view of three quarters of the window, unless that cannot be built or the context is canceled; a message is returned exactly when the last view was answered with it |
| Engine.RetryBudget | internal/engine/context.go:53-56 | the retry's budget is no larger whenever the first view could be built |
| Engine.RetryIsSuffix | internal/engine/context.go:52-65 | with the same tools the retry shows a suffix of the turns of the first view |
| Engine.ThinkingRetryExactly | internal/engine/loop.go:125 | the retry of the thinking phase shows no message the first view did not show, whatever the history, exactly when its budget is no larger, or no view of one turn fits the first budget, or no view of two turns fits the second; over all messages, and over those with the engine's own roles |
| Engine.TwoTurnView | internal/context/builder.go:99-171 | what is built from two plain messages, the second of a user |
| Engine.ThinkingRetryCanGrow | internal/engine/loop.go:125 | a policy, a serialized tool and a history of two requests of which the first view shows one and the retry both |
| Engine.ExecuteTools | internal/engine/loop.go:186-238 | in whatever order the tools finish, observation i is the user's message with output i under the ID of call i |
| Engine.RunTurn | internal/engine/loop.go:161-256 | a turn appends the trimmed reply with its calls and usage, result by result in order, and the reminder, as far as it gets before it is canceled, and ends the run exactly without calls |
| Engine.CutTurnExactly | internal/engine/loop.go:170-253 | a turn that is cut leaves a legal history exactly when it stored nothing, or no calls without their results, and its call IDs are distinct |
| Engine.PendingCallsAreForever | internal/engine/loop.go:170-175 | calls stored without results make every later history illegal |
| Engine.TurnKeepsLegal | internal/engine/loop.go:161-256 | a completed turn keeps a history legal exactly when its calls have distinct, nonempty IDs |
| Engine.ClashIsForever | internal/engine/loop.go:161-256 | otherwise no continuation is ever legal |
| Engine.ConversationKeepsLegal | internal/engine/loop.go:45-100 | a whole conversation of such turns keeps the history legal |
| Gateway.NextKeepsInv | internal/gateway/manager.go:33-65 | every step of every thread keeps the invariant |
| Gateway.RunKeepsInv | internal/gateway/lifecycle.go:11-105 | so does every interleaving |
| Gateway.NoMessageLost | internal/gateway/manager.go:33-65 | admitted is dequeued plus queued, in order, at most 64 of them queued; the activity count is their number; an evicted worker leaves an empty queue |
| Gateway.RecordsGrow | internal/gateway/manager.go:51-64 | records only grow at their end, and nothing is enqueued once a conversation is closing |
| Gateway.RecordsArePermanent | internal/gateway/manager.go:33-65 | however a run goes on, what was admitted and dequeued stays in order, and a closing conversation never admits again |
| Gateway.OneConversationPerKey | internal/gateway/manager.go:43-53 | per key at most one conversation is mapped or holds an open session |
| Gateway.KeyLeavesAfterClose | internal/gateway/lifecycle.go:81-105 | a key leaves the map only after Session.Close returned |
| Gateway.SuccessorComesAfter | internal/gateway/manager.go:43-53 | a successor is spawned only when every predecessor of its key has closed its session |
| Gateway.ShutdownDrains | internal/gateway/gateway.go:165-171 | when Shutdown returns, every worker ever spawned is done and every session is closed |
| GatewayProgress.ShutdownCanReturn | internal/gateway/gateway.go:165-171 | from every reachable state a shutdown that has begun has a continuation in which it returns: there is no deadlock |
| GatewayProgress.SomethingMoves | internal/gateway/manager.go:88-97 | until it has returned, some step of some thread gets it closer |
| Gateway.NothingAddedAfterBarrier | internal/gateway/gateway.go:165-199 | past the barrier no worker and no adapter is added, whatever Receive and Run do |
| Gateway.AdaptersStartOnce | internal/gateway/gateway.go:175-199 | adapters are started once; after that their number only falls |
| Eviction.IdleIsSeen | internal/gateway/lifecycle.go:61-67 | the idle snapshot is taken exactly when nothing is queued, and is the number of messages dequeued |
| Eviction.IdleEvicts | internal/gateway/lifecycle.go:69-79 | in every reachable state the timer of a waiting worker evicts exactly when its queue is empty and the gateway is not canceled |
| Eviction.IdleWorkerLeaves | internal/gateway/lifecycle.go:44-105 | from there the worker, left alone, ends with its session closed and its key free, and nothing else changed |
| Eviction.IdleConversationLeaves | internal/gateway/lifecycle.go:22-105 | the same from the top of the loop of any idle conversation |
| Eviction.MessageIsTaken | internal/gateway/lifecycle.go:39-43 | a worker takes the oldest message that waits, and starts over after it |
| Manager.ConversationManager.Enqueue | internal/gateway/manager.go:33-65 | a message is accepted exactly when its conversation is new or open with room, and is then last in its queue; a refusal changes nothing |
| Manager.ConversationManager.Lookup | internal/gateway/manager.go:43-53 | looking up or spawning is the protocol's step |
| Manager.ConversationManager.Send | internal/gateway/manager.go:57-64 | the non-blocking send is the protocol's step |
| Manager.ConversationManager.IdleSequence | internal/gateway/lifecycle.go:63-67 | the snapshot is idle exactly when the conversation is mapped, open and empty |
| Manager.ConversationManager.BeginEviction | internal/gateway/lifecycle.go:69-79 | eviction commits exactly when the gateway runs and the conversation is mapped, open, empty and counted as in the snapshot |
| Manager.ConversationManager.CloseRuntime | internal/gateway/lifecycle.go:81-105 | the teardown closes the session before the key is free |
| Manager.ConversationManager.FinishEviction | internal/gateway/lifecycle.go:97-105 | the key is removed only if it still leads here |
| Worker.ConversationWorker.Select | internal/gateway/lifecycle.go:36-48 | which case the select takes and what it does; a timer that fires leads out of the loop exactly when the queue is empty and the gateway not canceled |
| Worker.ConversationWorker.OneRound | internal/gateway/lifecycle.go:22-49 | one round of the loop takes only steps of the protocol, among any steps of others |
| Worker.ConversationWorker.CloseRuntime | internal/gateway/lifecycle.go:81-105 | so does the teardown |
| Worker.ConversationWorker.Process | internal/gateway/conversation.go:61-73 | for the protocol: a message may open the session, which then stays open, and the worker starts over |
| Processing.ConversationRuntime.Process | internal/gateway/conversation.go:54-103 | with a session the runner is started exactly when nothing cancels, there is a runner and the message is stored, and without one whenever nothing fails; the message is then the last of the stored history, and otherwise the session holds what was stored when it came; session and runner are found once and kept |
| Worker.ConversationWorker.Run | internal/gateway/lifecycle.go:11-50 | a worker that is done has closed its session, freed its key, and left no message behind unless the gateway was canceled |
| Worker.OthersLeaveWorker | internal/gateway/lifecycle.go:9-50 | no other thread moves the worker |
| Dedup.TableIsBounded | internal/gateway/dedup.go:29-44 | the table never exceeds 4096 entries |
| Dedup.LastIsRemembered | internal/gateway/dedup.go:22-44 | the last acceptance of a key is in the table unless evicted from a full one with no older entry |
| Dedup.SeenWasAccepted | internal/gateway/dedup.go:22-44 | whatever the table holds was accepted, at that time |
| Dedup.AcceptedAgain | internal/gateway/gateway.go:118-150 | a key is accepted again only after 24 hours or after such an eviction |
| Dedup.Deduplicator.OldestKey | internal/gateway/dedup.go:33-42 | the loop over the map finds an oldest entry in any order |
| Dedup.Deduplicator.Remember | internal/gateway/dedup.go:29-44 | the acceptance is recorded and the bound kept |
| Dedup.Deduplicator.Admit | internal/gateway/gateway.go:118-150 | each outcome under its exact condition: a duplicate is what the table holds from the last 24 hours; only success is remembered; what was refused or ignored stays admissible |
| Telegram.Adapter.Poll | internal/telegram/adapter.go:77-97 | the loop over a batch computes the offset and stops at the first rejection |
| Telegram.PassesOnlySettled | internal/telegram/adapter.go:77-97 | the offset never goes back, is where it was or one behind an update, and passes an update only when it was settled or a larger one came first |
| Telegram.AscendingBatch | internal/telegram/adapter.go:77-97 | in ascending order the offset passes only what was handled or ignorable; it stops behind the last update before the first rejected one, and without a rejection, which there is exactly when some update from the offset on is neither, behind them all |
| Telegram.RejectedStaysAhead | internal/telegram/adapter.go:86-91 | after a rejection the offset stands between a rejected message and everything before it |
| Telegram.PolledOnlySettled | internal/telegram/adapter.go:77-97 | over any number of polls with ascending batches, the offset passes an ID in one of them, where every update with that ID was handled or ignorable |
| Telegram.OvertakenIsLost | internal/telegram/adapter.go:83-85 | an update behind a larger one is passed unread |
| Telegram.OvertakenExample | internal/telegram/adapter.go:83-85 | a batch in which that happens |
| Telegram.SplitMessage | internal/telegram/adapter.go:124-146 | the chunks join to the text, fit the limit, and all but the last are full or cut after a newline |
| Telegram.CutPoint | internal/telegram/adapter.go:132-138 | the cut is after the last newline of the window's latter half, or at the limit |
| Approval.RunKeepsInv | internal/approval/manager.go:54-127 | every interleaving of waiters and replies keeps the invariant |
| Approval.AllowedMeansApproved | internal/approval/manager.go:54-127 | Wait returns allowed only on an accepted approval of that very registration, resolved at most once and gone afterwards |
| Approval.RepliesComeFromResolve | internal/approval/manager.go:106-127 | only the reply that finds a registration is recorded for it |
| Approval.SendNeverBlocks | internal/approval/manager.go:112-126 | the channel a reply finds is empty, so the default branch is never taken |
| Approval.OldWaiterIsHarmless | internal/approval/manager.go:81-88 | an old waiter never removes a newer registration with its key |
| Approval.OneLivePerKey | internal/approval/manager.go:71-88 | two registrations of one key are never both live, that is in time, unanswered and not returned |
| Approval.ReplyReachesLive | internal/approval/manager.go:106-127 | the reply to a live request reaches that very registration and no other |
| Approval.TimelyReplyDecides | internal/approval/manager.go:93-127 | the answer given in time to a waiting request is what its Wait returns, and the key is free again |
| Approval.UnansweredIsDenied | internal/approval/manager.go:89-95 | a Wait whose notice fails, or that gives up after its time, returns a denial |
| Approval.ExpiredIsDenied | internal/approval/manager.go:96-100 | a request that ran out of time before its Wait looked again is denied in every continuation, whatever replies it has |
| Approval.ExpiredMayCoexist | internal/approval/manager.go:112-119 | a run in which a late reply lets a key be registered again before the old Wait returned |
| Approval.ApprovalManager.RegisterPending | internal/approval/manager.go:71-80 | registering is the protocol's step, refused exactly for a pending key |
| Approval.ApprovalManager.RemovePending | internal/approval/manager.go:81-88 | the deferred removal is the protocol's step |
| Approval.ApprovalManager.ResolvePending | internal/approval/manager.go:106-127 | a reply is accepted exactly when it finds a live registration, which it consumes |
| Reporter.DoneWhilePending | internal/delivery/reporter.go:44-67 | the channel exists exactly while reservations are outstanding, and the counter is their number, however often callbacks run |
| Reporter.ReportsFollowNotice | internal/delivery/reporter.go:69-84 | no report of a task is sent while that task's own reservation is outstanding |
| Reporter.NoLostWakeup | internal/delivery/reporter.go:69-84 | a blocked report waits for the current channel or for one already closed |
| Reporter.AllCalledBack | internal/gateway/manager.go:54-64 | once a callback of every reservation was called, nothing is pending and no report waits for an open channel |
| Reporter.BlockedIsSent | internal/delivery/reporter.go:69-84 | and then a blocked report can wake up and is sent |
| Reporter.CallersRelease | internal/gateway/gateway.go:104-113 | admission and Receive call back: in every interleaving a reservation is released exactly when its caller is through, and a caller that is not can release it at once |
| Reporter.ChannelReporter.Prepare | internal/delivery/reporter.go:44-53 | reserving is the protocol's step |
| Reporter.ChannelReporter.ReleaseOnce | internal/delivery/reporter.go:54-62 | releasing is the protocol's step, effective once |
| Reporter.ChannelReporter.SendRound | internal/delivery/reporter.go:69-84 | a round sends exactly when no channel is set |
| Strings.SplitJoin | internal/tools/edit_file.go:95-142 | splitting joined newline-free lines gives them back |
| Strings.JoinSplit | internal/tools/edit_file.go:95-142 | joining the lines of a text gives it back |
| Strings.TrimSpaceIs | internal/tools/edit_file.go:78-78 | trimming cuts off blanks only, and leaves none at either end |
| EditFile.WindowMatches | internal/tools/edit_file.go:113-119 | the inner loop decides whether a window matches modulo trimming |
| EditFile.LineByLineReplace | internal/tools/edit_file.go:94-143 | the sliding window finds the only matching window, or reports none or how many |
| EditFile.LineEditExactly | internal/tools/edit_file.go:94-143 | the last level succeeds exactly when one window matches, and every line outside it is unchanged and in order |
| EditFile.FuzzyReplace | internal/tools/edit_file.go:58-91 | the four levels in their order make that edit: the text found once is replaced, as written, with line ends normalized, or trimmed, or the one window of lines that matches |
| EditFile.EditIs | internal/tools/edit_file.go:58-143 | what every edit does, in terms of occurrences: which level decides, what it replaces, and when it is refused |
| EditFile.TwiceIsRefused | internal/tools/edit_file.go:60-66 | a text that occurs at two places apart as it is written is refused as ambiguous |
| EditFile.WeakAmbiguityExactly | internal/tools/edit_file.go:72-90 | a text found more than once only by the second or third level is edited exactly when one window of whole lines matches |
| EditFile.WeakAmbiguityIsEdited | internal/tools/edit_file.go:72-90 | a text found three times by both levels that is edited |
| EditFile.EditIsOneRegion | internal/tools/edit_file.go:58-143 | every success replaces one contiguous region, of the text or of its normalized form, that does not depend on the new text |
| EditFile.UniqueTextIsReplaced | internal/tools/edit_file.go:58-64 | a text that occurs once is what is replaced |
| EditFile.ExactEditIsUndone | internal/tools/edit_file.go:58-64 | the reverse edit restores the text when the new text occurs nowhere else |
| EditFile.CountIsOne | internal/tools/edit_file.go:60-64 | the count is one exactly when all occurrences overlap the first |
| EditFile.CountHidesOverlap | internal/tools/edit_file.go:60-64 | a text counted once that occurs twice |
| EditFile.CountOfOneIsUniqueExactly | internal/tools/edit_file.go:60-64 | a count of one means one occurrence in every text exactly when the old text does not overlap itself |
| EditFile.NormalizedExactly | internal/tools/edit_file.go:68-70 | normalizing leaves a carriage return before a newline exactly where two stood |
| EditFile.NormalizeSplit | internal/tools/edit_file.go:68-70 | around each return with newline the two sides are normalized on their own, with a newline between |
| EditFile.NormalizePlain | internal/tools/edit_file.go:68-70 | a text without one stays as it is |
| Framing.FramesAreStandard | internal/provider/openai/responses.go:438-462 | on conventional lines the reader frames as section 9.2.6 of the WHATWG HTML Standard, and treats the end as a blank line |
| Framing.StandardExactly | internal/provider/openai/responses.go:438-462 | it yields just the standard's frames exactly when the stream broke off, or nothing but the terminator is left pending |
| Framing.LineExactly | internal/provider/openai/responses.go:450-454 | line by line it does what the standard does exactly on conventional lines, and on a bare event field with nothing to reset |
| Framing.OtherLines | internal/provider/openai/responses.go:450-454 | what it does on the others: bare field names are ignored, and an event name loses its outer blanks |
| Framing.UndelimitedFrame | internal/provider/openai/responses.go:456-461 | a last frame without its blank line, which the reader dispatches and the standard discards |
| Framing.StreamRoundTrip | internal/provider/openai/responses.go:438-462 | frames written as a stream are read back, payloads of many lines and names included |
| Framing.ReturnsAreDropped | internal/provider/openai/responses.go:438-462 | a carriage return before the newline belongs to the line end |
| Framing.LastLineIsScanned | internal/provider/openai/responses.go:438-462 | the last line may lack its newline |
| Framing.MarkIsSkipped | internal/provider/openai/responses.go:440-443 | a byte order mark at the beginning is skipped |
| Responses.FirstDecides | internal/provider/openai/responses.go:327-437 | the first event that is not benign decides the result, and which it is |
| Responses.SucceedsExactly | internal/provider/openai/responses.go:327-463 | success exactly at a well-formed completion before any failing event |
| Responses.RejectedExactly | internal/provider/openai/responses.go:358-436 | which event fails a stream, and with which fault |
| Responses.EndIsReported | internal/provider/openai/responses.go:456-463 | a broken or early end is reported only for the stream's own end |
| Responses.EventsAre | internal/provider/openai/responses.go:327-357 | one event for each frame; the frame's name is the type of an event that has none |
| Responses.OutputOfSuccess | internal/provider/openai/responses.go:364-389 | an empty terminal list yields the finalized items, an absent one all items, in strictly increasing output index |
| Responses.ListsIsUnique | internal/provider/openai/responses.go:374-387 | that order is unique, whatever order the map is visited in |
| Responses.FinalizedIsLastWord | internal/provider/openai/responses.go:392-403 | an item is final exactly when the last word on its index is a done event, and then it is that event's item |
| Responses.DeltaCutsDoNotMatter | internal/provider/openai/responses.go:404-434 | how a text or argument string is cut into deltas cannot change the result |
| Responses.OutputsAreIndependent | internal/provider/openai/responses.go:392-434 | events about different outputs may arrive in either order |
| Accumulation.ItemIsSaid | internal/provider/openai/responses.go:392-434 | an accumulated item is told by the events alone: kind, call ID, name, number of parts, and every text and argument string as what last set it plus the deltas since |
| Accumulation.ReplyTells | internal/provider/openai/responses.go:364-389 | so is the whole reply of a successful stream: status, usage, error and output |
| Accumulation.AddedThenDeltas | internal/provider/openai/responses.go:392-434 | after an item was added and deltas for it among events about other outputs, a completion without a list returns it with all deltas at the end of its arguments and of each text |
| Accumulation.DoneReplaces | internal/provider/openai/responses.go:404-434 | a done event replaces what was accumulated |
| Responses.StreamIsRead | internal/provider/openai/responses.go:314-463 | a stream written frame by frame is read as the events of its frames |
| ResponseReader.SetPart | internal/provider/openai/responses.go:419-434 | the content grows to the index and only the addressed part changes |
| ResponseReader.EventReader.Collect | internal/provider/openai/responses.go:373-388 | visiting the map in any order and sorting yields the specified output |
| ResponseReader.EventReader.Handle | internal/provider/openai/responses.go:358-436 | the branches do exactly what the state machine does for an event |
| ResponseReader.EventReader.Decode | internal/provider/openai/responses.go:327-357 | pending lines are cleared and dispatched, skipping the terminator |
| ResponseReader.ReadEvents | internal/provider/openai/responses.go:314-463 | the line loop returns the specified result on every stream, decoder and read error, and reports the end as what it was |
| ReplyMap.MapResponse | internal/provider/openai/responses.go:218-251 | the loops compute the specified message or the first fault; a message has the texts of all output parts in order, and the usage of the reply |
| ReplyMap.AcceptedExactly | internal/provider/openai/responses.go:218-251 | a reply is accepted exactly when complete, without refusal or malformed call, and with something to say; its text is that of all output parts in order, its calls are kept in order, its usage is kept |
| ReplyMap.RefusedExactly | internal/provider/openai/responses.go:218-251 | for which fault a reply is refused: what it is marked with, its first bad item, or nothing to say |
| ReplyMap.AcceptedTurnIsLegalExactly | internal/provider/openai/responses.go:237-242 | the turn it starts keeps the history legal exactly when its call IDs differ |
| ReplyMap.ClashIsAccepted | internal/provider/openai/responses.go:237-242 | a reply with clashing call IDs is accepted |
| RouteKeys.SessionKeyRoundTrip | internal/channel/route.go:28-34 | every route is read back from its key: empty components, delimiters inside, with and without thread |
| RouteKeys.ParsedKeyIsBuilt | internal/channel/route.go:28-34 | nothing but keys of routes is read |
| RouteKeys.SessionKeysAreInjective | internal/channel/route.go:24-34 | two routes share a conversation exactly when they are equal |
| RouteKeys.DedupKeyRoundTrip | internal/gateway/dedup.go:15-18 | a message key determines channel, account and message ID |
| RouteKeys.KeySpacesAreDisjoint | internal/gateway/dedup.go:15-18 | a message key is never a conversation key |
| RouteKeys.EscapedExactly | internal/channel/route.go:28-34 | how each byte of a component is written |
| RouteKeys.SampleKeys | internal/channel/route.go:28-34 | three keys, with their labels and separators |

## Left out

- JSON: the record encoder is a small text form with the facts the log needs, and the event decoder and the validity of arguments are parameters of the streaming reader; compaction of embedded arguments is not modelled.
- Other processes: their operations are atomic with respect to this store's; a reader without a lock may see a failed batch before its rollback.
- FileStore.SessionFile.ExternalChange: nothing is said of a store after another process deleted and re-created the file under its pending rollback, except that its invariant is then gone.
- SharedFile.Run: two stores, whose operations do not overlap in time.
- FileStore.SessionFile.Create: staging through a temporary file is one outcome, because nothing of it is visible before the link.
- FileStore.SessionFile.EnsureLoaded: the comparison of size, identity and modification time is one flag that says whether the cached file information is still current.
- Sessions.Session.Append: one session ID per service; the update time and the message count are those of the stored metadata, not kept in the open session.
- MemoryStores.RunBoth: agreement leaves out update time and message count, because a created entry in memory keeps those it was given.
- Estimator.EstimateText: the classes of scripts collapse, because every character outside ASCII weighs the same; invalid UTF-8 is not modelled.
- Engine.RunTurn: a cut stands for any failing append as well as a cancellation.
- Worker.ConversationWorker.Process: for the protocol only the opening of the session matters; what else happens to a message is in Processing.ConversationRuntime.Process, without the texts reported to the user.
- GatewayProgress.ShutdownCanReturn: a continuation exists; that a scheduler takes it, and that runners and Session.Close return, is assumed.
- Gateway.NoMessageLost: conversations are told apart by their index instead of their address, and errors collected from Session.Close are not modelled.
- Worker.ConversationWorker.Run: the schedule of other threads is finite, so nothing is said about a worker that runs for ever.
- Dedup.Deduplicator.Admit: the answers of the command router and of access policy are parameters.
- ResponseReader.ReadEvents: items are values in the maps instead of pointers. A line beyond 16 MB appears as a read error; a stream beyond 32 MB appears as one that ends there, so that what is pending is dispatched.
- EditFile.FuzzyReplace: texts are sequences of characters; reading and writing the file and resolving its path are not modelled.
- Integers are unbounded where the source uses 64 bits, and costs are integers.
- HTTP clients, OAuth, platform SDKs, sandboxing, path checks, the flock system call, file permissions and session listing are not part of this model.
- Request building, the sniffing of unlabelled responses, prompt composition, report modes, access policy, adapter supervision and subagents would add only easy members.
