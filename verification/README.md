# Portfolio API: models and proofs

This project models the parts of the portfolio API whose correctness depends on interleavings,
crashes or bit-level detail, and proves what they are there to guarantee. Everything is Dafny 4.11;
`dafny verify dfyconfig.toml` checks the whole project.

| files | what they model |
|---|---|
| `TokenStore.dfy`, `AuthService.dfy`, `AuthAnswers.dfy` | the refresh_tokens table, the Login, Refresh and Logout requests that interleave over it, and what their answers promise |
| `Broker.dfy`, `KafkaConsumer.dfy`, `Persister.dfy`, `Analytics.dfy` | the at-least-once consumer, composed with the event persister and with the analytics aggregator |
| `WorkerPool.dfy`, `FanOut.dfy`, `Merge.dfy`, `FanOutMerge.dfy`, `Pipeline.dfy` | the channel combinators, and FanOut feeding Merge |
| `Watcher.dfy`, `WatcherRuns.dfy` | the watcher's pipeline: poller, normalising stage, publisher; shutdown, draining, the promise about lastBlock |
| `LogsFetcher.dfy`, `Normalizer.dfy`, `Coverage.dfy` | the node's answers, the two address conversions, and the watcher running on a chain: what is published and what is lost |
| `EventIdentity.dfy` | EventIDs, and the correspondence between rows and logs |
| `EndToEnd.dfy` | watcher, topic and persister joined: from the chain to the wallet_events table |
| `Snapshot.dfy` | the snapshot runner on top of the worker pool |
| `Base64.dfy`, `Phc.dfy` | the PHC string codec of argon2id hashes |
| `Common.dfy`, `FilterMaps.dfy` | options, storage faults, channels; filtering and mapping a sequence |

## How to read the models

- A goroutine or a request is a program counter, and one repository call, channel operation or broker
  call is one atomic step. `IsRun(run, acts, ...)` says that `run` lists the states and `acts` the steps
  between them; the theorems quantify over all runs. A request may stop for good anywhere (a crash).
- Code that updates state in place is a class (`RefreshTokenRepository`, `AuthService`, `Consumer`,
  `EventRepository`, `Handler`, `Aggregator`, `Runner`, `SnapshotRepository`). Each method is proved
  against the function the theorems use: `AuthService.Refresh` is exactly the steps of `RequestStep`
  run back to back, and `Consumer.Run` only ever takes steps of the group machine, or resumes where its reader stands.
- A storage call is given a `Fault`: it goes through, it is lost before taking effect, or only its
  acknowledgement is lost. Clocks, random ids, tokens, provider answers and cancellation are parameters.
- SHA-256 is an injective digest where collisions matter (`EventIdentity.CollisionFree`; the token hash
  is a constructor). Everything else about cryptography, JSON, SQL and Kafka wire formats is outside.

## Where the code and its comments disagree

- `internal/repository/postgres/refresh_token_repository.go:173-182` has the directions the wrong way
  round: `replaced_by` leads from the older row to the newer one, so the query called "forward" walks
  from older to newer. The union of both walks is not affected (`AuthService.ClosureIsFamily`).
- `internal/service/auth_service.go:248-249` says every failure surfaces as ErrInvalidCredentials. The code
  returns distinct errors for an expired token, a replayed token and a storage failure. A refresh answers
  ErrInvalidCredentials exactly when its token is empty or, the storage answering, unknown, whatever else runs
  (`AuthService.WhichDenial`).
- `internal/broker/event.go:62-66` says one log that hits two tracked wallets makes several events. The normaliser
  makes one, the sender's: a tracked receiver gets its incoming event if and only if the sender is not tracked
  (`Normalizer.ReceiverGetsEventIffSenderUntracked`).
- `internal/watcher/watcher.go:221` says lastBlock does not advance past unpublished logs. A poll keeps that
  promise under every schedule exactly when, at the moment of the poll, every kept event is published and the
  poll's own logs are all dropped by the normaliser, or the poll can never finish because it is jammed behind an
  event that fails validation (`WatcherRuns.PollKeepsPromiseIff`; counting logs not yet normalised as well, only
  when it found none, `WatcherRuns.PollFromRestLeavesNoBacklogIff`). Up to 67 logs can be unaccounted for
  (`Watcher.BacklogBound`, reached by `Watcher.BacklogBoundIsReached`).
- `internal/watcher/watcher.go:191-194` waits for the publish goroutine "to drain". Run does return, with no Publish
  in flight (`WatcherRuns.ReturnsAfterCancel`, `WatcherRuns.NothingPublishedAfterReturn`), but the publisher drops
  what it has in hand, and the poller and the stage may still be at work (`WatcherRuns.ReturnsBeforeTheOthers`).
- `internal/watcher/watcher.go:209-215` retries an event until the broker has it. An event that fails the
  publisher's validation is retried for ever and blocks all later ones (`WatcherRuns.UnpublishableBlocks`); the
  pipeline drains with a healthy broker if and only if no such event is left (`WatcherRuns.DrainsIffPublishable`).
- `internal/auth/argon2.go:190-191` promises strict validation. Text before the first `$`, text after a
  number, leading zeros and blanks, a sign before the version number, line breaks and stray trailing bits in base64
  are accepted (`Phc.AcceptedIff` says what is); a decoded string is the encoder's own exactly when it is canonical
  (`Phc.ReencodingIffCanonical`). Each kind has its lemma:
  `Phc.NotStrict`, `Phc.TextAfterNumbersIsIgnored`, `Phc.LeadingZeroIsIgnored`, `Phc.BlankIsSkipped`,
  `Phc.SignIsAccepted`, `Base64.LineBreakIsSkipped`, `Base64.StrayBitsAreIgnored`.
- "At most one message is processed but uncommitted" holds of one process, and of one partition; over
  crashes of a whole topic it holds if and only if there is at most one partition
  (`KafkaConsumer.OneUncommittedIffOnePartition`).
- "Handler runs before ack" (`internal/broker/kafka/consumer.go:77-79`) holds of one Run per reader
  (`KafkaConsumer.CommittedOffsetsAreDisposed`). A second Run on an open consumer goes on from the reader's own
  position, so it can commit past a message that was being retried when the first was cancelled, and past no other
  (`KafkaConsumer.LeftBehindIsAccounted`, `KafkaConsumer.ASecondRunCanLose`); it is safe exactly when no such message
  is unaccounted for at the call (`KafkaConsumer.ResumingIsSafeIff`). The binaries call Run once.
- One poll covers its block range on every chain only if the node's head does not move between its two queries
  (`LogsFetcher.PollCompleteIffSameHead`). Over a whole run the logs missing below lastBlock are exactly the
  outgoing ones strictly between the head of a poll's first query and the block that poll moved lastBlock to
  (`Coverage.ExactlyTheGapsAreMissing`); they are missing for good (`Coverage.LostForGood`), and it does happen
  (`Coverage.ALogCanBeLost`).
- The EventID of an event is its own, against every other transaction, log index, wallet and direction, exactly when
  its transaction hash, log index and wallet id hold no `|` (`EventIdentity.OwnsEventIdIffBarFree`). Among events
  whose transaction hashes and log indices are free of bars the wallet ids may hold any
  (`EventIdentity.EventIdIdentifiesKey`).
- "Snapshot failed iff every wallet failed" holds of uncancelled runs (`Snapshot.UncancelledSnapshot`). Over all runs,
  cancelled ones included, it holds exactly when the first n wallets succeed, n being the number of workers
  (`Snapshot.StatusIsRightIff`).

## Model

| member | source | states |
|---|---|---|
| `TokenStore.RefreshTokenRepository.Insert` | internal/repository/postgres/refresh_token_repository.go:32-47 | inserts one row unless its id or token hash is taken or its link leads nowhere; a lost acknowledgement leaves the row in |
| `TokenStore.RefreshTokenRepository.FindByHash` | internal/repository/postgres/refresh_token_repository.go:53-72 | the one row holding a hash, if there is one, or a storage error |
| `TokenStore.RefreshTokenRepository.Rotate` | internal/repository/postgres/refresh_token_repository.go:101-153 | all or nothing: the new row in and the old one revoked and linked to it, or no change, with the reply saying which |
| `TokenStore.RefreshTokenRepository.Revoke` | internal/repository/postgres/refresh_token_repository.go:157-168 | revokes one row, keeping an earlier revocation time |
| `TokenStore.RefreshTokenRepository.ForwardQuery` | internal/repository/postgres/refresh_token_repository.go:187-193 | the recursive query's fixpoint is what can be reached by following replaced_by any number of times, on any table, cycles included, and it ends |
| `TokenStore.RefreshTokenRepository.BackwardQuery` | internal/repository/postgres/refresh_token_repository.go:194-200 | likewise for the rows that can reach the start |
| `TokenStore.RefreshTokenRepository.RevokeFamily` | internal/repository/postgres/refresh_token_repository.go:184-211 | every row of either closure ends revoked, earlier revocation times and all other rows unchanged |
| `AuthService.StepKeepsInv` | internal/service/auth_service.go:198-397 | every step of every request keeps the lineage: each row has a login and a generation, links go to the next generation of the same login, linked rows are revoked |
| `AuthService.WriteOnce` | internal/repository/postgres/refresh_token_repository.go:101-211 | over any stretch of any run rows are never lost, revoked_at and replaced_by are written at most once, all other columns never change |
| `AuthService.LinksFormSimplePaths` | internal/repository/postgres/refresh_token_repository.go:101-153 | in every reachable table the links are disjoint acyclic paths within one login and one user, and every row that is not a tail is revoked |
| `AuthService.ClosureIsFamily` | internal/repository/postgres/refresh_token_repository.go:184-211 | in every reachable table the two-way closure from any row is exactly the set of tokens descended from the same login |
| `AuthService.BurnTouchesOnlyFamily` | internal/repository/postgres/refresh_token_repository.go:202-206 | RevokeFamily revokes exactly the still active rows of the login family and changes nothing else |
| `AuthService.BurnIsForever` | internal/service/auth_service.go:269-289 | after RevokeFamily has taken effect, in every later state of every run the family has no new member and no active token, whatever refreshes were past their freshness check |
| `AuthService.OneActivePerFamily` | internal/repository/postgres/refresh_token_repository.go:115-130 | next to an unrevoked token every other member of its family is revoked, replaced and older |
| `AuthService.UserIsTheLoginsUser` | internal/service/auth_service.go:346-397 | every token reached by any chain of refreshes carries the user of the login that started the chain |
| `AuthService.SingleUse` | internal/service/auth_service.go:251-293 | in any run, with any other requests, crashes and faults, one refresh token is exchanged for new tokens at most once |
| `AuthService.RacingRefreshes` | internal/service/auth_service.go:251-293 | of any set of refreshes racing for one active token exactly one wins, all others are denied as replays, and the whole family, the winner's new token included, ends revoked if and only if there were at least two racers |
| `AuthService.WhichDenial` | internal/service/auth_service.go:248-293 | in any run, with any other requests, a refresh ends as invalid credentials if and only if its token was empty or unknown to an answering storage when looked up, and as expired if and only if it was known, unrevoked and past its time then |
| `AuthAnswers.LoginAnswers` | internal/service/auth_service.go:198-226 | in any run a login is denied if and only if its credentials were rejected, fails internally when the check failed, comes to a token only if they were accepted, and its first step changes nothing in the table |
| `AuthAnswers.LoginIssuesIff` | internal/service/auth_service.go:198-226 | in any run a login hands out a given token if and only if its credentials were accepted and at its next step the mint succeeded, id and hash were free and the storage acknowledged |
| `AuthAnswers.LoginAddsItsRow` | internal/service/auth_service.go:346-397 | that step adds exactly one row, with the accepted user, the token's hash, the issue time, expiry one ttl later, user agent and ip, neither revoked nor replaced |
| `AuthAnswers.RefreshIssuesIff` | internal/service/auth_service.go:251-293 | in any run a refresh hands out a given token if and only if it was let through and at its next step the presented row was still unrevoked and unreplaced and the storage took the new one |
| `AuthAnswers.RefreshAddsItsRow` | internal/service/auth_service.go:286-293 | that step adds exactly one such row for the user of the presented token, which was active and in time at its lookup, revokes that token's row and links it to the new one, and changes no other |
| `AuthAnswers.ReplayedMeansBurned` | internal/service/auth_service.go:269-289 | in any run, once a refresh is denied as a replay the whole family of the token it presented is revoked, and stays so |
| `AuthAnswers.RefreshAlone` | internal/service/auth_service.go:251-293 | what one undisturbed refresh answers and does to the table, case by case, without reference to the request program: AuthService.Refresh carried through |
| `AuthAnswers.LoggedOutMeansRevoked` | internal/service/auth_service.go:309-329 | in any run, once a logout of a non-empty token has answered success, every row that held the token at its lookup is revoked, in that state and every later one |
| `AuthAnswers.LogoutRevokesOnly` | internal/service/auth_service.go:325-328 | the revoking step changes that one row, or nothing when it is lost, and succeeds exactly when it is acknowledged |
| `AuthAnswers.LogoutLooksUp` | internal/service/auth_service.go:312-323 | the lookup changes nothing; it succeeds at once exactly for empty and unknown tokens |
| `AuthService.AuthService.Login` | internal/service/auth_service.go:198-226 | the method is the request program run alone; stated on the table itself: denied exactly when the credentials are rejected, a token exactly when they are accepted and the storage takes it, and then one row more, given column by column |
| `AuthService.AuthService.Refresh` | internal/service/auth_service.go:251-293 | the method is the request program run alone, with all its denials and error branches |
| `AuthService.AuthService.Logout` | internal/service/auth_service.go:309-329 | the method is the request program run alone; stated on the table itself: the presented token's row is revoked and no other changes, unknown tokens succeed, and which storage failures are reported |
| `AuthService.AuthService.IssueTokens` | internal/service/auth_service.go:346-397 | inserts or rotates, and tells a lost rotation and a vanished row from a storage error |
| `Broker.Unmarshal` | internal/broker/event.go:139-184 | a message decodes, to what was encoded, exactly when it is JSON of schema version 1 with none of the five identifying fields empty |
| `KafkaConsumer.Consumer.InvokeWithRetry` | internal/broker/kafka/consumer.go:246-268 | one to three tries of the same message, the last one decisive, waits of 200 and 400 ms, cancellation only between tries |
| `KafkaConsumer.Consumer.CommitOrSkip` | internal/broker/kafka/consumer.go:226-237 | commits the message's offset, or nothing at all in replay mode; a failed commit stops the loop, as cancelled when the context is done |
| `KafkaConsumer.Consumer.Settle` | internal/broker/kafka/consumer.go:190-218 | an undecodable message is not handled, a decodable one gets one to three tries, the last one successful or the third unless cancelled; then one offset forward (at least one when the reader was resumed), or a stated reason to stop |
| `KafkaConsumer.Consumer.Run` | internal/broker/kafka/consumer.go:174-219 | the loop takes only steps of the group machine, stops only for a stated reason, and on a new reader leaves no offset behind without one and commits exactly one per message it got through; on a resumed reader it passes over nothing but what an earlier Run was cut off with |
| `KafkaConsumer.Consumer.Close` | internal/broker/kafka/consumer.go:272-282 | however often it is called the reader is closed exactly once, only that call can report an error, and the history stays as it is; a closed consumer does not run |
| `KafkaConsumer.StepKeepsInv` | internal/broker/kafka/consumer.go:174-268 | fetches, tries, commits, lost commits, crashes, restarts and appends keep the commit invariant |
| `KafkaConsumer.CommittedOffsetsAreDisposed` | internal/broker/kafka/consumer.go:174-268 | every offset below the committed one was undecodable, handled, or failed three consecutive tries of one delivery |
| `KafkaConsumer.CommitsNeverDecrease` | internal/broker/kafka/consumer.go:226-237 | over any stretch of any run committed offsets, logs and attempt history only grow |
| `KafkaConsumer.OneInFlight` | internal/broker/kafka/consumer.go:174-219 | per partition only the committed offset itself can be tried and uncommitted, and the running process has at most one such message |
| `KafkaConsumer.OneInFlightPerProcess` | internal/broker/kafka/consumer.go:174-219 | each process of a run, alive or dead, has at most one message tried and uncommitted, at every later point |
| `KafkaConsumer.OneUncommittedIffOnePartition` | internal/broker/kafka/consumer.go:174-219 | across crashes "at most one" holds of every run if and only if there is at most one partition |
| `KafkaConsumer.LeftBehindIsAccounted` | internal/broker/kafka/consumer.go:171-216 | when Run may be called again on an open reader, every offset left behind is undecodable, handled, failed three times, or was being handled when an earlier Run of that reader was cut off |
| `KafkaConsumer.ResumingIsSafeIff` | internal/broker/kafka/consumer.go:171-219 | calling Run again on an open reader leaves nothing behind without a reason, whatever follows, if and only if each message that was being handled when the first Run was cut off is undecodable, handled or failed three times already |
| `KafkaConsumer.ASecondRunCanLose` | internal/broker/kafka/consumer.go:171-216 | a run in which a second Run commits past a message that was neither handled nor tried three times |
| `Persister.EventRepository.Create` | internal/repository/postgres/event_repository.go:40-64 | first write wins, a conflict is a success, a lost acknowledgement leaves the row in |
| `Persister.Handler.Handle` | internal/persister/persister.go:51-119 | nil and invalid envelopes are dropped with success, valid ones stored, each column from its own field, without touching any other row; only a storage error asks for a retry |
| `Persister.InsertKeepsFirstWins` | internal/repository/postgres/event_repository.go:40-64 | one more insert, at a position not below earlier ones of its partition, keeps first-wins |
| `Persister.FirstWinsIsUnique` | internal/persister/persister.go:55-76 | the log and the set of messages that took effect determine the table |
| `Persister.TableIsFunctionOfLog` | internal/persister/persister.go:55-76 | after any run with crashes and redelivery the table equals that of one crash-free pass over the log with the same per-message outcomes, and each row comes from the lowest such offset |
| `Persister.CommittedIsPersisted` | internal/persister/persister.go:55-76 | every valid event below the committed offset is in the table unless three tries in a row failed |
| `Persister.RowsAreValid` | internal/persister/persister.go:78-119 | after any run every row has a known direction and none of its columns is empty but the raw payload |
| `Analytics.Aggregator.Apply` | internal/analytics/analytics.go:106-136 | adds one (modulo 2^64) to the bucket of the envelope's network, direction, token and full hour, found without the code's own truncation, changes no other bucket, and never fails |
| `Analytics.KeyIffInBucket` | internal/analytics/analytics.go:112-149 | an event's bucket is the one of its three fields whose hour is a multiple of 3600 seconds and holds the event's time, or the clock's when it has none |
| `Analytics.SameBucketIff` | internal/analytics/analytics.go:112-149 | two timed events share a bucket if and only if they agree on network, direction, token and the number of the hour |
| `Analytics.Aggregator.Snapshot` | internal/analytics/analytics.go:165-190 | one summary per bucket, strictly sorted |
| `Analytics.SortSlice` | internal/analytics/analytics.go:174-188 | sorts summaries with distinct keys: strictly increasing and the same multiset |
| `Analytics.KeyLessConnected` | internal/analytics/analytics.go:174-188 | the comparison orders any two different keys, one way only |
| `Analytics.KeyLessTransitive` | internal/analytics/analytics.go:174-188 | the comparison is transitive |
| `Analytics.KeyLessIff` | internal/analytics/analytics.go:174-188 | earlier hours first, then network, direction and token, each in the order of the first differing character |
| `Analytics.SnapshotIsUnique` | internal/analytics/analytics.go:165-190 | buckets have only one strictly sorted listing, so map iteration order cannot show |
| `Analytics.ViewIsFunctionOfLog` | internal/analytics/analytics.go:106-190 | in replay mode, after any number of restarts and any interleaving of partitions, the count of a bucket is the number of decodable envelopes consumed since the restart with its network, direction and token and an emission time in its hour, modulo 2^64; there are no other buckets |
| `WorkerPool.EverySchedule` | internal/concurrent/workerpool.go:51-111 | every schedule ends within 5·input+n+2 steps, is stuck only when the output is closed and drained, never touches a closed channel, has at most n items in process, and delivers a sub-multiset of the image of the input, all of it when uncancelled |
| `WorkerPool.NeverStuck` | internal/concurrent/workerpool.go:86-109 | until the output is closed and drained some step other than cancellation is possible |
| `WorkerPool.GoodAmongDelivered` | internal/concurrent/workerpool.go:64-99 | for any property of results, if those of the first n items have it then under every schedule, cancelled or not, nothing is delivered without a result that has it |
| `WorkerPool.OneDelivered` | internal/concurrent/workerpool.go:64-99 | for each of the first n items a schedule that ends with its result delivered and no other |
| `FanOut.Broadcast` | internal/concurrent/fanout.go:38-75 | every output is a prefix of the input, lengths do not increase with the consumer index and differ by at most one, all complete without cancellation, and a cancellation at a given send stops exactly there |
| `FanOut.EverySchedule` | internal/concurrent/fanout.go:38-75 | every schedule of FanOut with its producer, full buffers of 16 and draining readers ends; at every point the outputs hold prefixes of the items with lengths that do not grow with the index and differ by at most one; no closed channel is sent on or closed again; uncancelled all outputs end complete and closed |
| `FanOut.NeverStuck` | internal/concurrent/fanout.go:59-72 | until every output is closed and drained some step other than cancellation is possible, a full output having a reader |
| `Merge.EverySchedule` | internal/concurrent/fanout.go:103-132 | over channels still being filled: at most three steps per item fed and n+1 more, each channel's order kept, no closed channel touched, stuck with all inputs closed only when drained, and uncancelled every channel merged completely |
| `FanOutMerge.StepKeepsInv` | internal/concurrent/fanout.go:38-132 | every step of FanOut and Merge on shared channels keeps both invariants and the channels equal on both sides |
| `FanOutMerge.EverySchedule` | internal/concurrent/fanout.go:38-132 | every schedule of a broadcast merged again ends within items·(4n+2)+2n+5 steps, never stuck before it is closed and drained, never touching a closed channel, each consumer's part a prefix of the items |
| `FanOutMerge.EveryItemNTimes` | internal/concurrent/fanout.go:38-132 | uncancelled, the merged output of n consumers ends with every item exactly n times and every consumer's copies in the order of the items |
| `Pipeline.GenerateLoop` | internal/concurrent/pipeline.go:88-103 | sends the items in order, all of them or those before the send that found the context done |
| `Pipeline.StageLoop` | internal/concurrent/pipeline.go:39-77 | what a stage has emitted is the filter-map of what it got through, and it stops early only on cancellation |
| `Pipeline.StepKeepsInv` | internal/concurrent/pipeline.go:39-103 | every step of a chain of stages keeps: each stage's output with what it holds is the filter-map of what it received, no send or close on a closed channel |
| `Pipeline.EveryScheduleEnds` | internal/concurrent/pipeline.go:39-103 | every schedule of a chain is finite, panic-free, and stuck only when the last channel is closed and drained |
| `Pipeline.EveryScheduleFilterMaps` | internal/concurrent/pipeline.go:39-103 | a chain emits, in order, a prefix of the composed filter-map of the items, and all of it when uncancelled |
| `Watcher.PublishedIsPrefix` | internal/watcher/watcher.go:114-272 | in every reachable state the acknowledged events are a prefix of the normalised enqueued logs and were publishable, and the topic repeats events but never skips or reorders one |
| `Watcher.BacklogBound` | internal/watcher/watcher.go:228-241 | at most 67 enqueued logs are neither dropped nor published, and none exactly when all buffers and hands are empty |
| `WatcherRuns.PollKeepsPromiseIff` | internal/watcher/watcher.go:218-221 | from any reachable state a poll moves lastBlock past no unpublished event under any schedule if and only if, at the poll, nothing kept is unpublished and none of its logs is kept, or it can never finish behind an event that fails validation |
| `WatcherRuns.PollFromRestKeepsPromiseIff` | internal/watcher/watcher.go:218-221 | from rest the promise holds under every schedule if and only if the normaliser drops every log of the poll |
| `WatcherRuns.PollFromRestLeavesNoBacklogIff` | internal/watcher/watcher.go:218-221 | from rest no log is left neither dropped nor published under every schedule if and only if the poll found none |
| `WatcherRuns.LeavesOneBehind` | internal/watcher/watcher.go:228-272 | for any poll that can finish and brought a log or found an event outstanding, a schedule that ends it with one left over, however many logs there are |
| `WatcherRuns.DrainsIffPublishable` | internal/watcher/watcher.go:228-272 | from any reachable state a healthy broker lets the pipeline publish everything found and come to rest if and only if every outstanding event passes validation |
| `WatcherRuns.UnpublishableBlocks` | internal/watcher/watcher.go:246-272 | an event that fails validation is never passed: in no reachable state is it or a later one acknowledged |
| `WatcherRuns.ReturnsAfterCancel` | internal/watcher/watcher.go:180-195 | after cancellation, for every schedule and broker, the steps left are bounded, failing polls apart; once that many are taken Run and all three goroutines have returned, and until they have some step is possible |
| `WatcherRuns.NothingPublishedAfterReturn` | internal/watcher/watcher.go:187-195 | Run returns with no Publish in flight, and nothing is written or acknowledged in any later state |
| `WatcherRuns.ReturnsBeforeTheOthers` | internal/watcher/watcher.go:187-195 | a reachable state in which Run has returned with a kept event unpublished while the poller and the stage are still at work |
| `Watcher.BacklogBoundIsReached` | internal/watcher/watcher.go:218-221 | a run in which lastBlock moves with 67 logs unpublished and nothing published at all |
| `Watcher.PublishWithRetry` | internal/watcher/watcher.go:246-272 | retries refusals until acceptance or cancellation, with exactly one wait between attempts: 200 ms first, each later wait twice the one before, or 30 s when that is less |
| `LogsFetcher.MaxBlock` | internal/provider/blockchain/ethereum_logs.go:153-178 | the highest block number that can be read off the logs, 0 for none |
| `LogsFetcher.FetchLogs` | internal/provider/blockchain/ethereum_logs.go:50-104 | the outgoing and the incoming logs from the given block on with the highest block of both, or a failure if either query fails |
| `LogsFetcher.FetchedHolds` | internal/provider/blockchain/ethereum_logs.go:50-104 | exactly which logs of the chain an answer holds, by block number and topic filter |
| `LogsFetcher.FetchedIsOnChain` | internal/provider/blockchain/ethereum_logs.go:50-104 | an answer holds nothing that is not on the chain, in range and selected |
| `LogsFetcher.PollCompleteIffSameHead` | internal/provider/blockchain/ethereum_logs.go:50-104 | a poll covers its range on every chain if and only if both queries see the same head |
| `Coverage.StepKeepsLive` | internal/watcher/watcher.go:345-387 | every step of the watcher on a chain, polls with moving heads, pushes, advances and cancellation, keeps what is enqueued and what is missing accounted for |
| `Coverage.ExactlyTheGapsAreMissing` | internal/watcher/watcher.go:345-387 | in every reachable state a matching decodable log between the first non-empty poll's block and lastBlock is enqueued if and only if it is incoming or in no gap between a first query's head and the block reported |
| `Coverage.LostForGood` | internal/watcher/watcher.go:345-387 | a log in a gap is enqueued at no point of the run |
| `Coverage.ALogCanBeLost` | internal/watcher/watcher.go:345-387 | a run in which a log is lost, for any tracked addresses |
| `Coverage.OneHeadLosesNothing` | internal/watcher/watcher.go:345-387 | when each poll sees one head, every matching decodable log from the first non-empty poll's block up to lastBlock is enqueued in every reachable state, cancelled in the middle of a poll or not, and lastBlock never goes back |
| `Coverage.MattersIsKept` | internal/watcher/watcher.go:155-166 | every log the query matches for a well-formed tracked address is kept by the normaliser |
| `Coverage.DrainedIsOnTheTopic` | internal/watcher/watcher.go:228-272 | with empty buffers and hands, every matching log that was enqueued has its event acknowledged and on the topic |
| `Coverage.EveryTransferIsOnTheTopic` | internal/watcher/watcher.go:114-272 | in a drained state, each poll having seen one head, every transfer of a tracked wallet from the first non-empty poll's block up to lastBlock has its event on the topic, the sender's if both wallets are tracked |
| `Normalizer.PadThenRead` | internal/provider/blockchain/ethereum_logs.go:183-187 | padding an address for the query and reading it back from a topic gives the key of the tracked map |
| `Normalizer.PaddingIsInjective` | internal/provider/blockchain/ethereum_logs.go:183-187 | two addresses are queried alike if and only if they are the same address |
| `Normalizer.FilterAgreesWithNormalizer` | internal/watcher/normalizer.go:59-135 | a well-formed log the query matched is never dropped, and is attributed to the tracked wallet with the right direction |
| `Normalizer.KeptIff` | internal/watcher/normalizer.go:59-135 | which logs are kept, and every field of the event a kept log becomes |
| `Normalizer.ReceiverGetsEventIffSenderUntracked` | internal/watcher/normalizer.go:79-94 | a log makes one event: a tracked receiver gets it, as incoming, if and only if the sender is not tracked, and otherwise it is the sender's |
| `Normalizer.HexRoundTrip` | internal/watcher/normalizer.go:150-158 | every 64-bit number written in hex is parsed back as itself |
| `Normalizer.SignIsDropped` | internal/watcher/normalizer.go:150-158 | a sign before the digits is dropped and only the low 64 bits are kept |
| `Normalizer.HexValueOfFirst` | internal/watcher/normalizer.go:150-158 | digits count by position, the first one most |
| `Normalizer.LowerCase` | internal/watcher/normalizer.go:137-148 | lower-casing changes the 26 capital letters, each to its own small letter, and nothing else |
| `EventIdentity.EventIdIdentifiesKey` | internal/watcher/watcher.go:304-314 | two events with bar-free transaction hash and log index share an EventID if and only if they agree on transaction, log index, wallet and direction, whatever the wallet ids hold |
| `EventIdentity.OwnsEventIdIffBarFree` | internal/watcher/watcher.go:311-314 | no event about another transaction, log index, wallet or direction has this event's EventID if and only if its transaction hash, log index and wallet id hold no bar |
| `EventIdentity.OwnsKeyIffBarFree` | internal/watcher/watcher.go:311-314 | the same of the natural key, without any assumption about the hash |
| `EventIdentity.OwnsKeyInWalletIff` | internal/watcher/watcher.go:311-314 | for any one wallet and direction, no other transaction and log index give the same key if and only if neither of the two holds a bar |
| `EventIdentity.PublishableIff` | internal/broker/event.go:164-184 | the envelope of an event is valid if and only if wallet id, transaction hash and contract address are non-empty |
| `EventIdentity.EnvelopeWraps` | internal/watcher/watcher.go:286-302 | every field of the envelope is the event's own, with schema 1, network ethereum and type transfer |
| `EventIdentity.RecordIsRow` | internal/persister/persister.go:100-119 | what is stored of a message has the transaction, block number, contract, amount, symbol, wallet and direction of the log it carries |
| `EventIdentity.BarCollides` | internal/watcher/watcher.go:311-314 | any bar in a transaction hash or log index can be moved across the separator: two different pairs, one key |
| `EventIdentity.WalletBarCollides` | internal/watcher/watcher.go:311-314 | so can any bar in a wallet id, into the log index |
| `EventIdentity.LogsHaveOwnEventIds` | internal/watcher/watcher.go:286-314 | two logs of a chain have the same EventID if and only if they are the same log, and refetching or republishing a log never changes it |
| `EventIdentity.PublisherKeysByPartition` | internal/broker/kafka/publisher.go:105-135 | keying messages by wallet puts all copies of one event into one partition |
| `EventIdentity.RowsAreLogs` | internal/repository/postgres/event_repository.go:40-64 | rows and logs that took effect correspond one to one: each such log has a row under its own EventID, each column read off the log itself, each row is such a log's, and equal EventIDs mean equal logs |
| `EventIdentity.TableIsOneRowPerLog` | internal/persister/persister.go:51-76 | after any run of the persister with crashes, redelivery and republication the table has exactly one row per log that took effect, as many as those logs, and every valid log below the committed offsets is among them unless three tries in a row failed |
| `EndToEnd.WatchingIsSourced` | internal/watcher/watcher.go:345-387 | when each poll sees one head, whatever the poller has found is on the chain, not before the first non-empty poll's block and not after what lastBlock has or is about to reach |
| `EndToEnd.DrainedTable` | internal/persister/persister.go:51-76 | when a drained watcher's topic is committed in full and nothing was given up, the table has exactly one row per log the watcher enqueued, each column read off the log itself |
| `EndToEnd.OneRowPerTransfer` | internal/watcher/watcher.go:209-227 | the watcher drained with one head per poll, the persister's logs being its topic split by wallet, all committed and no message failed three times in a row: a tracked transfer above block 0 has its own row, each column read off the log itself, if it lies from the first non-empty poll's block up to lastBlock and, no poll being in progress, only if, whatever crashes, redelivery and republication there were |
| `Snapshot.ProcessWallet` | internal/snapshot/runner.go:246-317 | the wallet fails only with its native balance; otherwise the native item comes first with the fetched amount, asset and price (0 when missing), then USDC and USDT, each exactly when held, with its own balance at 1 dollar; value is amount times price |
| `Snapshot.ResultOf` | internal/snapshot/runner.go:246-317 | a successful wallet has between one and three items, all its own, exactly the first native, reported as above |
| `Snapshot.TokenReportedIffHeld` | internal/snapshot/runner.go:279-313 | for any list of tokens, a token is reported, once and with its own symbol, balance, price and value, if and only if that balance was fetched and is not zero, whatever happened to the other tokens |
| `Snapshot.CollectedPermutes` | internal/snapshot/runner.go:201-211 | the order in which results arrive does not change the multiset of items |
| `Snapshot.ItemsAreReported` | internal/snapshot/runner.go:191-211 | under every schedule, cancelled or not, each item collected is the native balance or a stablecoin of one of the wallets, with that wallet's amount and price |
| `Snapshot.FailuresConcat` | internal/snapshot/runner.go:201-211 | failures, like items (`Snapshot.CollectedConcat`), are gathered in the order the results arrive |
| `Snapshot.InsertedConcat` | internal/snapshot/runner.go:216-220 | what is stored of two batches is what is stored of each, in order |
| `Snapshot.FailedIffOnlyErrorsCameBack` | internal/snapshot/runner.go:222-226 | cancelled or not, a snapshot is marked failed if and only if something came back and none of it was a success |
| `Snapshot.UncancelledSnapshot` | internal/snapshot/runner.go:191-226 | without cancellation the items are exactly those of the wallets whose native balance was fetched, and the status is failed if and only if every wallet failed |
| `Snapshot.StatusIsRightIff` | internal/snapshot/runner.go:222-226 | under every schedule, cancelled or not, the status is failed exactly when every wallet failed, if and only if the first n wallets succeed, n being the number of workers |
| `Snapshot.CancelledFailureIsNotMarked` | internal/snapshot/runner.go:222-226 | a cancelled run in which every wallet fails and the snapshot counts as completed |
| `Snapshot.Runner.Collect` | internal/snapshot/runner.go:201-211 | gathers the items of the successes and the ids of the failures in arrival order |
| `Snapshot.Runner.Persist` | internal/snapshot/runner.go:216-220 | stores every item; a failing insert skips only that item |
| `Snapshot.Runner.Run` | internal/snapshot/runner.go:126-239 | when a snapshot comes back and when not, its items, each one of a wallet's with that wallet's amount and price, its status, what the tables hold afterwards, the two uncancelled guarantees, and completed under any schedule when the first n wallets succeed |
| `Base64.RoundTrip` | internal/auth/argon2.go:177-180 | decoding an encoding of any byte string gives it back, and the encoding uses only the 64 letters |
| `Base64.CanonicalIffRoundTrip` | internal/auth/argon2.go:215-222 | a decodable text is the encoding of its content if and only if it has no line breaks and no stray bits |
| `Base64.DecodesIff` | internal/auth/argon2.go:215-222 | a text is refused if and only if it holds a foreign character or leaves one letter over |
| `Base64.GroupIsOneNumber` | internal/auth/argon2.go:177-180 | three bytes and their four letters are one 24-bit number, most significant first |
| `Base64.Alphabet` | internal/auth/argon2.go:177-180 | the letters are those of RFC 4648, section 4 |
| `Base64.LineBreakIsSkipped` | internal/auth/argon2.go:215-222 | a line feed or carriage return anywhere in a text changes nothing in what it decodes to |
| `Base64.StrayBitsAreIgnored` | internal/auth/argon2.go:215-222 | sixteen texts decode to each single byte |
| `Phc.DecimalThenValue` | internal/auth/argon2.go:180-185 | printing a number and reading it back gives the number, printed without leading zeros |
| `Phc.ValueThenDecimal` | internal/auth/argon2.go:211-213 | reading a canonical numeral and printing it gives the numeral |
| `Phc.SplitJoin` | internal/auth/argon2.go:193 | splitting at the separator undoes joining fields that do not contain it |
| `Phc.SplitThenJoin` | internal/auth/argon2.go:193 | joining undoes splitting, for every string |
| `Phc.RoundTrip` | internal/auth/argon2.go:177-227 | decoding an encoding returns the cost parameters, salt and key, for all byte strings and all 32-bit and 8-bit parameters |
| `Phc.Layout` | internal/auth/argon2.go:177-186 | an encoding is written in the documented layout, field by field |
| `Phc.AcceptedIff` | internal/auth/argon2.go:192-227 | which strings are accepted, and for every other one which refusal it gets |
| `Phc.NotStrict` | internal/auth/argon2.go:188-199 | any separator-free text put before an encoding changes nothing in what is decoded |
| `Phc.FieldsDecode` | internal/auth/argon2.go:192-227 | any version, parameter and base64 texts that scan and decode, behind any first field, make an accepted string with what they stand for |
| `Phc.TextAfterNumbersIsIgnored` | internal/auth/argon2.go:204-213 | text after the version and after the last parameter changes nothing |
| `Phc.LeadingZeroIsIgnored` | internal/auth/argon2.go:211-213 | a leading zero changes no number |
| `Phc.SignIsAccepted` | internal/auth/argon2.go:204 | the version may carry a sign |
| `Phc.NumberIsRefused` | internal/auth/argon2.go:211-213 | a missing, signed or too large parameter is refused |
| `Phc.BlankIsSkipped` | internal/auth/argon2.go:204-213 | any blank before the version or before a parameter changes nothing |
| `Phc.ReencodingIffCanonical` | internal/auth/argon2.go:177-227 | an accepted string is what the encoder writes for its content if and only if it follows the documented layout to the letter |

## Left out

- `TokenStore.RefreshTokenRepository.RevokeFamily`: one atomic step. Against a Rotate that has not committed yet this is an assumption about the database: nothing in the statement locks the row such a Rotate is about to insert.
- `AuthService.RacingRefreshes`: the racers' clocks are before the token's expiry at their freshness check, no other request runs meanwhile, and every racer ends without a storage error, as the property says; `AuthService.BurnIsForever` and `AuthService.SingleUse` hold without these assumptions.
- `EventIdentity.EventIdIdentifiesKey`: the code keeps 64 bits of SHA-256; the model assumes the shortened hash has no collisions.
- Deleting a user, which cascades to the user's tokens, and inserting a token for a user who does not exist; Register.
- `KafkaConsumer.Consumer.Run`: retention, rebalances and a second live consumer of the group; the script of turns is finite, so that the endless loop ends.
- `Persister.TableIsFunctionOfLog`: created_at; messages with one EventID are assumed to share a partition, which `EventIdentity.PublisherKeysByPartition` derives from how the publisher keys them.
- `Analytics.Aggregator.Apply`: AmountTotal, a floating-point sum whose value depends on the order of additions, and parseAmount.
- `Analytics.ViewIsFunctionOfLog`: envelopes without EmittedAt, whose bucket comes from the clock and cannot be replayed.
- `WorkerPool.EverySchedule`: the input channel is full and closed from the start; the pool, FanOut, Merge, the chain of stages and the watcher are machines over values, so goroutines sharing memory in place are not captured.
- `FanOut.Broadcast`: the goroutine's loop alone, with cancellation as the number of the send that finds it; channels, blocking and closing are in `FanOut.EverySchedule`.
- `Pipeline.EveryScheduleFilterMaps`: all stages of a chain work on one type of items.
- `Watcher.PublishedIsPrefix`: one life of the process; a restarted watcher begins at the latest block, so nothing is claimed across restarts. The normalising function is arbitrary here; `Coverage` is about the real one.
- `WatcherRuns.ReturnsAfterCancel`: a poll that has its answer counts as done before the cancellation; a ticker that keeps winning against a done context only repeats failing polls.
- `LogsFetcher.FetchLogs`: HTTP and JSON; of an RPC error only the fact. On the chains of the theorems every log carries its block's number.
- `LogsFetcher.PollCompleteIffSameHead`: polls from a known block; polls from the latest block and what the next, inclusive poll recovers are in `Coverage.ExactlyTheGapsAreMissing`.
- `Coverage.OneHeadLosesNothing`: chain reorganisations; the theorem for polls during which the head moves is `Coverage.ExactlyTheGapsAreMissing`.
- `EndToEnd.OneRowPerTransfer`: the amount's text is taken to be non-empty, and block 0 is left out of the range because lastBlock 0 means that there is none yet.
- `AuthService.AuthService.Login`: looking the user up and checking the password is one given outcome.
- `AuthService.AuthService.IssueTokens`: the access token, a JWT.
- `Persister.EventRepository.Create`: the created_at read back into the event.
- `Analytics.Aggregator.Snapshot`: AmountTotal, as in `Analytics.Aggregator.Apply`.
- `Normalizer.FilterAgreesWithNormalizer`: the amount's conversion to floating point; formatting verbs such as zero-padding of strings behave as the code expects.
- `Phc.RoundTrip`: the argon2 computation itself; the lengths returned are those of salt and key modulo 2^32, as in the code.
- `Snapshot.StatusIsRightIff`: what the providers answer for a wallet is fixed before the run; a cancellation does not turn an answer still under way into a failure.
- `Snapshot.ProcessWallet`: amounts and prices are exact numbers, item ids drawn from the clock are left out, so two equal ids (a failed insert) appear only as an insert fault.
- `Snapshot.Runner.Run`: a status update that is lost leaves the stored status pending although the returned one differs; this is modelled, reference_time and created_at are not.
- RabbitMQ, router, notifier, HTTP and gRPC handlers, middleware, configuration and mains: forwarding or single-branch code that would only add easy members.
