# Gravity-well online services: a verified model

This project models the state-changing protocols behind the ranked online services and proves
properties of them. Every claim below is a theorem about the model; the model follows the branches,
edge cases and error conditions of the files cited in the table.

| files | what they model |
|---|---|
| `MatchmakingService.dfy`, `FencedRuntime*.dfy`, `RuntimeProcess.dfy` | several API processes caching one matchmaking state under fenced leases |
| `LeaseFinalization.dfy` | one request's lease: opened by a hook, finalised by whichever of three hooks comes first |
| `RankedSettlement*.dfy`, `RankedRatings.dfy`, `RankedReplies.dfy`, `RankedWorkers.dfy`, `RankedTables.dfy`, `RankedResultStatus.dfy`, `RankedHonestSession.dfy` | settling a ranked session by consensus or by a server-owned decision |
| `CommitmentChain.dfy`, `CommitmentStore.dfy`, `CommitmentPacing.dfy`, `CommitmentCadence.dfy`, `CommitmentRoundTrip.dfy` | input commitments: building, storing and judging a hash-linked chain |
| `SocialGraph.dfy` | friend requests, friendships and blocks, under ids written in either case |
| `ReplayArchive.dfy` | replay rows and replay blobs under interleaved ingests and deletes |
| `DrainGate.dfy`, `Migration.dfy`, `MigrationPrefix.dfy` | the deployment drain gate and the migration script |
| `Leaderboard.dfy`, `DirectoryWalk.dfy`, `Sorting.dfy` | leaderboard paging and the packaging script's directory walk |
| `Contrast.dfy` | colour blending and contrast ratios |

How the model is built:

* Protocols are state machines over single moves: one database transaction, one stretch of code
  between two awaits, or the arrival of a reply. Moves interleave freely. The classes
  (`RuntimeProcess.Process`, `RuntimeProcess.RuntimeRows`, `RankedTables.Tables`,
  `LeaseFinalization.RequestLease`, `SocialGraph.Tables`, `ReplayArchive.Routes`,
  `DrainGate.Script`, `Migration.Database`) hold the same state in fields, and each method is proved
  to change it exactly as the matching move does.
* The queue service, the simulator, the rating rule, the digests and the fingerprint are function
  parameters. What the server relies on is spelled out (`MatchmakingService.ReportsResolutions`,
  `QueuesOnlyOnJoin`, `TellsApart`, `CommitmentChain.Injective`, `RankedSettlement.DigestsTellApart`).
* Clocks, randomness and failures are inputs of the moves. Fields named `trail`, `log`, `issued`,
  `history`, `trace`, `overtaken`, `evidence` and `ledger` record what happened and are never read by
  a decision. A request that writes nothing because its memory equals the stored snapshot has its
  operations counted into the stored `log`, as they left that very snapshot.

What the proofs found about the code:

* A snapshot is saved only when the token equals the newest one, so stale writers are fenced. The
  chain of commits needs two more things, which `FencedRuntime.Guarded` spells out and runs that meet
  them are called guarded: a request must not install its load or decide to write nothing after its
  lease was superseded, and a finaliser must not run before the `onRequest` hook has ended. That a
  successful request is durable needs a third (`FencedRuntime.ArrivesLate`): the reply to a commit
  must not reach its process after a newer lease there has taken over the snapshot. Guarded runs
  without such replies are called timely. `LateInstallLosesCommits`, `LateSkipLosesWork`,
  `EarlyFinalLosesCommits` and `LateAcknowledgeLosesWork` show exactly when breaking one of them loses
  work, and the four lemmas named `...IsReachable` that timely runs lead to states in which that
  happens.
* The social routes order a pair of accounts by the text the caller sent, while the tables compare
  ids by value and do not require ordered keys; the accepted pattern for ids allows upper case. When
  `a000...` and `b000...` are friends and the first blocks `B000...`, the deletion looks for the pair
  the other way round and removes nothing: the friendship stands across the block. A request sent
  under that text is accepted between friends, and `remove` finds no friendship. `NextKeepsInv` says
  of every route and state whether it keeps the invariant, `InvUnlessMissed` of every run, and
  `BlockedUntilUnblocked` when a block holds; `MissedRun` is the failing run. Texts in lower case
  never fail (`LowerCaseSortsAlike`).
* Muting, unmuting and unblocking insert a row with one flag NULL. PostgreSQL checks NOT NULL before
  it looks for the conflicting row (`apps/api/migrations/008_social_privacy_and_moderation.sql:12-13`),
  so as written it accepts none of these statements, and a block stays for good. The model takes the
  database's answer as an input of the three routes, so its results hold either way.
* A lease is unlocked once, whenever its finalisers run; an early finaliser's persist may end after
  the unlock, exactly when the refresh fails under it (`PersistPrecedesUnlock`).
* An honest upload whose commitments arrive in pace passes the coverage check under every policy,
  except when the proof is a single round of at most 120 frames: its one commitment has nothing to be
  measured against and is rejected as soon as any observation is required (`HonestUploadVerifies`).
* The replay archive's failure paths leave differences between rows and blobs: a pool failure after
  the blob is stored, a failing rollback, a lost reply to a commit, a failing removal.
  `BlobsMatchRowsAtRest` says exactly which endings of which steps show at rest;
  `PoolFailureOrphans` and `LostCommitEmpties` are two runs.
* Validation accepts migration histories with gaps (`GapIsAccepted`). `PrefixOnceClosed` states
  exactly when the applied names are a prefix of the release, and `OlderReleaseChangesNothing`
  exactly when an older release leaves a newer history untouched.
* The result route reads decision and match in separate queries. `StepsBackExactly` says for any two
  reads when the second steps back, and `StepBackIsReachable` gives such a run.
* A result submission whose peer was flagged is told to await the peer, while the session already
  shows as flagged to everybody who reads it: the route looks for an unsuspicious peer, the read for
  any suspicious submission. `SubmissionIsTold` says exactly when reply and status differ, and
  `AwaitingShowsFlagged` is such a run.
* A round without frames leaves no trace in a commitment chain, so a chain binds the non-empty rounds
  (`ChainBindsInputs`, `EmptyRoundLeavesNoTrace`).

Rows that begin with "one step:" state what a single move or call does; the theorems about runs rest
on them.

## Model

| member | source | states |
|---|---|---|
| FencedRuntimeTheorems.CommitsFormOneChain | apps/api/src/server.ts:1267-1306 | in every guarded run, whenever replies arrive, each committed snapshot is an earlier one with further operations performed on it, tokens never go back, and each operation takes effect at most once in the order performed |
| FencedRuntimeTheorems.StoredIsSequential | apps/api/src/server.ts:1348-1366 | the stored snapshot is what one sequential service reaches from its initial state, in every run, late replies and early finalisers included |
| FencedRuntimeTheorems.StaleWriterIsFenced | apps/api/src/matchmaking/runtimeStateStore.ts:91-130 | one step: only a transaction under the newest token changes the stored snapshot, the commit history or the outbox |
| FencedRuntimeTheorems.SuccessIsDurable | apps/api/src/server.ts:1377-1431 | in every timely run a request that ends without failure has all its operations in the stored log, for good |
| FencedRuntimeTheorems.AccessFollowsSnapshot | apps/api/src/matchmaking/sessionAccessStore.ts:84-168 | in every run the session-access rows are the projection of the stored snapshot at every point exactly when no start-up reset meets a stored snapshot with a non-empty projection |
| FencedRuntimeTheorems.GuardedClearsNothing | apps/api/src/server.ts:1325-1340 | in guarded runs no reset does, so the rows always follow the snapshot |
| FencedRuntimeTheorems.NoTicketWhileDraining | apps/api/src/server.ts:6527-6555 | at every point of every run, a draining state, stored or cached anywhere, has no queued ticket |
| FencedRuntimeTheorems.DrainingFollowsLog | apps/api/src/server.ts:6527-6555 | at every point of every run a state, stored or in memory, drains exactly when the last drain or resume among the operations behind it is a drain |
| FencedRuntimeTheorems.DrainedUntilResumed | apps/api/src/server.ts:6544-6548 | in every run, from a stored drain until a resume is stored, the stored snapshot drains and no ticket is queued in it |
| FencedRuntimeOutbox.RunIsFounded | apps/api/src/server.ts:1086-1139 | in every run each decision that is stored, pending or captured was reported by an operation performed, or is warranted by a state that came about |
| FencedRuntimeGuards.LateInstallLosesCommits | apps/api/src/server.ts:1357-1366 | a superseded lease installs an earlier load and the newest lease persists: unless a decision conflicts the stored operations survive exactly when the earlier load had them all |
| FencedRuntimeGuards.LateInstallIsReachable | apps/api/src/server.ts:1357-1366 | a timely run leads to a state in which that loses a committed operation |
| FencedRuntimeGuards.LateSkipLosesWork | apps/api/src/server.ts:1312-1323 | after a newer lease of its process reloads, a superseded request writes nothing exactly when no decision is pending or warranted; it then ends without failure, its operations stored only if they were before |
| FencedRuntimeGuards.LateSkipIsReachable | apps/api/src/server.ts:1312-1323 | a timely run leads to a state in which that happens with an operation that is not stored |
| FencedRuntimeGuards.EarlyFinalLosesCommits | apps/api/src/server.ts:1377-1393 | a finaliser before the refresh has ended persists unrefreshed memory under the newest token: unless a decision conflicts the stored operations survive exactly when memory has them all |
| FencedRuntimeGuards.EarlyFinalIsReachable | apps/api/src/server.ts:1436-1447 | a timely run leads to a state in which an abort during the refresh wipes what another process committed |
| FencedRuntimeGuards.LateAcknowledgeLosesWork | apps/api/src/server.ts:1293-1323 | the reply to an older commit reaches a process whose newest lease works on a newer snapshot: the lease may then end without writing exactly when memory equals the older snapshot and nothing waits but what that commit wrote; its operations are stored only if memory is also what the store holds or they were before |
| FencedRuntimeGuards.LateAcknowledgeIsReachable | apps/api/src/server.ts:1293-1323 | with an operation that undoes another, a timely run leads to a state in which such a reply makes a request end without failure and without its operation stored |
| FencedRuntimeReplies.SkipIsSafe | apps/api/src/server.ts:1312-1323 | one step: on the newest lease the equal-fingerprint shortcut is taken only when memory equals the stored snapshot |
| FencedRuntimeReplies.RunIsDurable | apps/api/src/server.ts:1377-1393 | every timely run keeps the facts the shortcut and the durability theorem rest on |
| FencedRuntimeChain.RunIsChained | apps/api/src/server.ts:1267-1306 | in every guarded run memory and queued checkpoints of the newest lease extend the stored operations, and the commits form a chain |
| FencedRuntimeHistory.RunIsGenuine | apps/api/src/server.ts:1260-1366 | in every run every stored, cached, captured and loaded state is the outcome of issued operations in order |
| FencedRuntimeDecisions.RunLosesNone | apps/api/src/server.ts:1086-1139 | in every run a decision a stored snapshot warrants is in the outbox, and one a process knows is pending there or in the outbox, with equal content |
| FencedRuntimeDecisions.PendingLeavesWhenDurable | apps/api/src/server.ts:1293-1299 | one step: a pending decision leaves a live process only through a commit that captured that object, or for a newer one of its session |
| FencedRuntimeDecisions.PendingUntilDurable | apps/api/src/server.ts:1086-1299 | over a whole run, while its process lives, a queued decision stays pending in its own or a newer object until a decision for its session is durable |
| FencedRuntimeDecisions.RequeuedIsNew | apps/api/src/server.ts:1086-1092 | one step: a decision queued again while checkpoints are in flight is none of the objects they captured |
| MatchmakingService.RunDrained | apps/api/src/server.ts:4255-4353 | no sequence of operations leaves a queued ticket while draining |
| MatchmakingService.DrainingIsLastWord | apps/api/src/server.ts:6543-6548 | after any operations the service drains exactly when the last drain or resume among them is a drain |
| MatchmakingService.QueueIsAsked | apps/api/src/server.ts:4255-4353 | after any operations a join is enqueued exactly when the last word is not a drain, a drain closes the queued tickets, a resume asks nothing, the rest is passed on |
| MatchmakingService.JoinAfterResume | apps/api/src/server.ts:4255-4353 | a join after a resume reaches the queue |
| MatchmakingService.ClosedIsEmpty | apps/api/src/server.ts:6545-6547 | once a drain is the last word no ticket is queued |
| RuntimeProcess.RuntimeRows.AcquireFenceToken | apps/api/src/matchmaking/runtimeCoordinator.ts:190-212 | taking the lease counts the token up and changes nothing else |
| RuntimeProcess.RuntimeRows.Save | apps/api/src/matchmaking/runtimeStateStore.ts:91-130 | saves exactly when the token is the newest |
| RuntimeProcess.RuntimeRows.Enqueue | apps/api/src/ranked/terminalDecisionStore.ts:394-472 | a decision row is written once; a different one is a conflict |
| RuntimeProcess.RuntimeRows.EnqueueAll | apps/api/src/server.ts:1281-1283 | writes every captured decision or reports a conflict |
| RuntimeProcess.RuntimeRows.Commit | apps/api/src/server.ts:1276-1292 | one transaction writes snapshot, access rows and decisions, or nothing |
| RuntimeProcess.Process.EnlistAll | apps/api/src/server.ts:1086-1092 | queues each decision as a new object in place of an older one |
| RuntimeProcess.Process.Perform | apps/api/src/server.ts:399-408 | one service call with its resolution callbacks |
| RuntimeProcess.Process.Refresh | apps/api/src/server.ts:1348-1366 | takes over a stored snapshot, cleans up, and queues what its sessions warrant; without one keeps memory |
| RuntimeProcess.Process.Persist | apps/api/src/server.ts:1267-1275 | captures memory and pending decisions into the next checkpoint |
| RuntimeProcess.Process.PersistIfChanged | apps/api/src/server.ts:1312-1323 | checkpoints unless the fingerprint is unchanged and nothing is pending |
| RuntimeProcess.Process.RunHead | apps/api/src/server.ts:1271-1292 | runs the first checkpoint's transaction |
| RuntimeProcess.Process.AcknowledgeHead | apps/api/src/server.ts:1293-1298 | remembers the fingerprint and forgets exactly the objects that were written |
| LeaseFinalization.FinalizationIsOrdered | apps/api/src/server.ts:1368-1447 | whenever the hooks run: at most one persist attempt; no handler gets the lease afterwards; a hook that found the lease returns after persist and unlock |
| LeaseFinalization.ReleasedExactlyOnce | apps/api/src/matchmaking/runtimeCoordinator.ts:121-145 | whenever the hooks run: at rest an acquired lease was unlocked once if the refresh failed or a finaliser found it, else not at all |
| LeaseFinalization.PersistPrecedesUnlock | apps/api/src/server.ts:1382-1406 | the persist ends before the unlock exactly when no refresh fails under a running persist |
| LeaseFinalization.WaitingHooksPersistFirst | apps/api/src/server.ts:1395-1420 | when the hooks wait for the onRequest hook, the persist always ends before the unlock |
| LeaseFinalization.FinaliserComesToRest | apps/api/src/server.ts:1382-1393 | whatever persist and release come to, the finalisation settles and every hook can resume |
| LeaseFinalization.AbortDuringRefresh | apps/api/src/server.ts:1441-1447 | an abort during a refresh that fails: the lease is unlocked once, before the persist ends |
| LeaseFinalization.RequestLease.Require | apps/api/src/server.ts:1368-1375 | grants the lease only while it is mapped and not being finalised |
| LeaseFinalization.RequestLease.Finalize | apps/api/src/server.ts:1377-1393 | starts the one finalisation, or joins it, or returns |
| RankedSettlementTheorems.DecisionFirst | apps/api/src/server.ts:5297-5326 | once a decision is stored for an unsettled session consensus never settles it; a no-contest never moves a rating |
| RankedSettlementTheorems.ConsensusFirst | apps/api/src/ranked/authoritativeResolutionService.ts:203-229 | a consensus settlement stays as it is and a later forfeit never ends settled |
| RankedSettlementTheorems.LateForfeitIsSuperseded | apps/api/src/server.ts:1189-1215 | a worker finishing a forfeit of a session settled by consensus marks it superseded and moves nothing |
| RankedSettlementTheorems.RatingsMoveOnce | apps/api/src/ranked/settlementService.ts:268-460 | ratings are the initial rating plus the recorded changes, one pair of changes for each match |
| RankedRatings.ChangesFollowTheRule | apps/api/src/ranked/settlementService.ts:252-259 | in every run, for every settled match, by consensus or forfeit, its two recorded changes are what the rating rule gives for the two ratings as the earlier changes add up and for the side that won |
| RankedRatings.RatingsStayPositive | apps/api/migrations/010_ranked_rating_engine.sql:3 | no rating falls to zero in any run |
| RankedWorkers.StatusFollows | apps/api/src/ranked/terminalDecisionStore.ts:167-316 | one step: which step gives a stored decision which status; its content never changes |
| RankedWorkers.EnqueueMeans | apps/api/src/ranked/terminalDecisionStore.ts:394-472 | one step: a decision is taken unless a different one is stored; a new one is pending, an equal one stays |
| RankedWorkers.NothingIsLeft | apps/api/src/ranked/authoritativeResolutionService.ts:147-202 | one step: a crashed worker leaves nothing but its claim's row, and a resolution that contradicts a stored one changes nothing |
| RankedWorkers.ChainsFollow | apps/api/src/server.ts:4973-5058 | one step: a stored chain changes only by an accepted commitment of a live session's own player for the own side |
| RankedWorkers.ForfeitIsCarriedOut | apps/api/src/server.ts:1171-1243 | a pending or abandoned forfeit of an unsettled session is claimed, resolved and marked: the match is the ruling's and the decision is settled with it, unless a rating would not stay positive |
| RankedWorkers.NoContestIsCarriedOut | apps/api/src/server.ts:1171-1243 | a pending or abandoned no-contest is claimed and marked, and no match or rating moves |
| RankedSettlementTheorems.ConsensusIsAttested | apps/api/src/server.ts:5441-5598 | a consensus rests on exactly two agreeing unsuspicious submissions, one per side, and on chains that attest the replayed proof |
| RankedSettlementTheorems.SuspicionIsFinal | apps/api/src/server.ts:5502-5520 | a session with a suspicious submission is never settled by consensus |
| RankedSettlementTheorems.AttestedIffSettled | apps/api/src/server.ts:5555-5562 | a proof carries a match-level attestation exactly when its session was settled on it by consensus |
| RankedSettlementTheorems.MatchCheckNeverFires | apps/api/src/server.ts:5571-5579 | when the transaction comes to settle, no match of that id or session exists |
| RankedSettlementTheorems.ResolveSettled | apps/api/src/ranked/authoritativeResolutionService.ts:203-229 | resolving a session that is settled already only records how, and moves nothing |
| RankedSettlementTheorems.RunExtends | apps/api/src/server.ts:5060-5630 | in every run matches, decisions, suspicion and stored chains are never taken back |
| RankedSettlementSafety.RunKeepsInv | apps/api/src/server.ts:1171-1243 | every run keeps matches justified by their source and workers truthful about the match table |
| RankedSettlementSafety.NoMatchYet | apps/api/src/server.ts:5164-5176 | a participant who has not submitted, in a session without a decision, finds no match |
| RankedSettlementSafety.MarkKeepsInv | apps/api/src/ranked/terminalDecisionStore.ts:238-316 | marking and giving back keep the invariant, whoever holds the claim |
| RankedTables.Tables.SettleMatch | apps/api/src/ranked/settlementService.ts:120-460 | inserts the match and moves both ratings, or nothing |
| RankedTables.Tables.SettleByConsensus | apps/api/src/server.ts:5528-5598 | checks the peer's chain, attests, settles; a failure undoes the attestation |
| RankedTables.Tables.DecideSubmission | apps/api/src/server.ts:5441-5598 | flag, await the peer, flag the session, or settle |
| RankedTables.Tables.SubmitResult | apps/api/src/server.ts:5060-5630 | the whole route, refusals included |
| RankedTables.Tables.ResolveForfeit | apps/api/src/ranked/authoritativeResolutionService.ts:147-264 | one resolution transaction, safe to repeat |
| RankedTables.Tables.MarkDecision | apps/api/src/ranked/terminalDecisionStore.ts:238-284 | only a live claim marks its decision, as its resolution ended |
| RankedTables.Tables.ReleaseClaim | apps/api/src/ranked/terminalDecisionStore.ts:286-316 | only a live claim gives its decision back |
| RankedTables.Tables.ProcessClaims | apps/api/src/server.ts:1171-1243 | the worker's loop over a batch |
| RankedSettlement.EqualPartiesAreFlagged | apps/api/src/ranked/resultValidation.ts:48-55 | one step: a submission for a session with one account on both sides is suspicious |
| RankedReplies.ReplyMeans | apps/api/src/server.ts:5060-5630 | for any tables and request: refused unless the session is open, the proof replays to the claim and the own chain covers it; else flagged exactly when the request is not clean or contradicts its peer, awaiting exactly without an unsuspicious peer, else settled or refused |
| RankedReplies.AcceptedExactly | apps/api/src/server.ts:5528-5598 | in tables a run can reach a submission is accepted exactly when it is fit and clean, its peer confirms it, the peer's chain covers the proof and both ratings stay positive |
| RankedReplies.RefusalMeans | apps/api/src/server.ts:5060-5410 | what each refusal says of the request and the tables |
| RankedTables.BatchKeepsInv | apps/api/src/server.ts:1171-1243 | a batch keeps what every run keeps |
| RankedResultStatus.StepsBackExactly | apps/api/src/server.ts:5647-5683 | of any two reads with their queries in any order, the second steps back exactly when the session was settled and then got a no-contest decision between the first one's match and decision queries |
| RankedResultStatus.StatusMovesForward | apps/api/src/server.ts:5722-5877 | so reads only move forward, and never leave no-contest or accepted, after a read that looked at the decision no later than at the match |
| RankedResultStatus.SettledBetweenReads | apps/api/src/server.ts:5647-5683 | a submission that settles between the two queries, followed by a no-contest decision, makes a read step back |
| RankedResultStatus.SelectForward | apps/api/src/server.ts:5722-5877 | one step: with inputs that only appear, the selection steps back exactly when a match appears beside a no-contest |
| RankedResultStatus.StatusSays | apps/api/src/server.ts:5647-5862 | for any three reads: accepted exactly with a match, no-contest or pending exactly with that ruling and no match, flagged exactly with neither but a suspicious submission, awaiting otherwise |
| RankedResultStatus.SubmissionIsTold | apps/api/src/server.ts:5444-5526 | a submission that is accepted or flagged shows as that at once; one told to await its peer shows as awaiting exactly when the session had no suspicious submission; a refused one changes nothing |
| RankedHonestSession.HonestSessionSettles | apps/api/src/server.ts:5060-5630 | from the empty tables, two stored honest chains and two equal submissions end in a settlement by consensus |
| RankedHonestSession.StepBackIsReachable | apps/api/src/server.ts:5647-5683 | from such a session a run follows in which a read steps back |
| RankedHonestSession.AwaitingShowsFlagged | apps/api/src/server.ts:5457-5475 | a run in which a player is told to await a peer while the session already shows as flagged |
| RankedHonestSession.HonestSessionExists | apps/api/src/ranked/inputCommitmentStore.ts:69-73 | the conditions of an honest session can be met under the rate asked for in production |
| CommitmentChain.CreateCommitments | apps/api/scripts/rankedProofFixture.ts:107-149 | the nested loops emit exactly the linked layout of one side's rounds |
| CommitmentChain.LayoutIsTiled | apps/api/scripts/rankedProofFixture.ts:116-145 | chunks of non-empty rounds tile them: sizes, contiguity and round ends |
| CommitmentChain.LayoutRoundTrip | apps/api/scripts/rankedProofFixture.ts:116-145 | putting the chunks together gives back the rounds |
| CommitmentChain.LinkAt | apps/api/scripts/rankedProofFixture.ts:122-144 | sequence numbers count from zero and each link carries its predecessor's digest |
| CommitmentChain.LinkBinds | apps/api/scripts/rankedProofFixture.ts:137-143 | equal final digests come from equal chunk sequences |
| CommitmentChain.ChainBindsInputs | apps/api/scripts/rankedProofFixture.ts:112-147 | two built chains end alike exactly when the non-empty rounds carry the same inputs |
| CommitmentChain.EmptyRoundLeavesNoTrace | apps/api/scripts/rankedProofFixture.ts:116-117 | one step: an empty round changes no commitment |
| CommitmentStore.AppendKeepsChain | apps/api/src/ranked/inputCommitmentStore.ts:75-154 | one step: appending keeps the stored chain, rewrites nothing and recognises repeats |
| CommitmentStore.AppendUsedSequence | apps/api/src/ranked/inputCommitmentStore.ts:96-104 | one step: a used sequence number is accepted again only with the same content |
| CommitmentStore.AppendAccepts | apps/api/src/ranked/inputCommitmentStore.ts:75-154 | one step: exactly the well-shaped repeats and continuations are accepted, and a new one is stored with its time of receipt |
| CommitmentStore.VerifyCoverage | apps/api/src/ranked/inputCommitmentStore.ts:175-338 | the coverage loop gives the verdict of the specification; a verified chain attests the proof |
| CommitmentStore.VerdictIsSound | apps/api/src/ranked/inputCommitmentStore.ts:200-309 | a verified verdict means the rows link chunks that cover the proof, in order of receipt |
| CommitmentStore.VerdictIsExact | apps/api/src/ranked/inputCommitmentStore.ts:200-338 | the verdict is verified exactly for attesting rows in order of receipt whose sizes and times meet the observation policy |
| CommitmentStore.CoverageMeaning | apps/api/src/ranked/inputCommitmentStore.ts:200-309 | covering chunks, put together, are that side's inputs of every round |
| CommitmentStore.AttestedInputsAreUnique | apps/api/src/ranked/inputCommitmentStore.ts:175-338 | one stored chain cannot attest two timelines |
| CommitmentPacing.PacedVerdict | apps/api/src/ranked/inputCommitmentStore.ts:250-320 | a chain that attests its proof and is received in pace is verified exactly when it has two rows or no observation is required |
| CommitmentCadence.VerifiedIsWithin | apps/api/src/ranked/inputCommitmentStore.ts:255-318 | a verified upload announces in no stretch of its rows more frames than the burst, the time between the first and the last of them and the tolerance allow, and lasted at least the required ratio of its frames |
| CommitmentCadence.WithinIsVerified | apps/api/src/ranked/inputCommitmentStore.ts:255-318 | an attesting upload in order of receipt that does so without the tolerance is verified |
| CommitmentRoundTrip.BuiltChainAttests | apps/api/scripts/rankedProofFixture.ts:107-149 | a built chain attests its proof exactly when epochs count from zero and every round has frames |
| CommitmentRoundTrip.HonestUploadVerifies | apps/api/src/ranked/inputCommitmentStore.ts:75-338 | under every policy the built commitments are all accepted in order and, received in pace, verified exactly unless they are a single one and observation is required |
| CommitmentRoundTrip.BuiltUploadIsStored | apps/api/src/ranked/inputCommitmentStore.ts:75-154 | a built upload is stored exactly when it has no more commitments than there are sequence numbers |
| SocialGraph.NextKeepsInv | apps/api/src/server.ts:3678-4110 | one step: a route keeps the invariant exactly when it is not a request or block that overlooks a friendship because the target's text sorts differently from its uuid; the invariant: one pending request per pair, none between friends, ordered friendship keys that rest on an accepted request, nothing across a block |
| SocialGraph.InvUnlessMissed | apps/api/src/server.ts:3678-4110 | the invariant holds throughout a run exactly when no route of it overlooks a friendship |
| SocialGraph.EverySequenceKeepsInv | apps/api/src/server.ts:3678-4110 | when the target texts of requests and blocks sort like their uuids, every run keeps the invariant |
| SocialGraph.LowerCaseSortsAlike | apps/api/src/server.ts:1804-1808 | a text in lower case sorts like the uuid it names |
| SocialGraph.UpperCaseSortsDifferently | apps/api/src/server.ts:283 | a text whose first letter is upper case sorts before an account whose first letter is smaller, and its uuid after it |
| SocialGraph.MissedRun | apps/api/src/server.ts:4018-4110 | two accounts become friends; a block, or a request, under a text that sorts the other way breaks the invariant |
| SocialGraph.AcceptKeepsInv | apps/api/src/server.ts:3808-3892 | one step: accepting is safe although it never looks at blocks |
| SocialGraph.RemoveEndsFriendship | apps/api/src/server.ts:3965-4016 | one step: removing ends a friendship exactly when there is one and the text sorts like its uuid |
| SocialGraph.BlockedUntilUnblocked | apps/api/src/server.ts:4018-4110 | after any run a block keeps the two from friendship and pending requests, whatever anyone does until the database accepts an unblock by its owner, exactly when the text sorts like its uuid or they were not friends |
| SocialGraph.MutedUntilUnmuted | apps/api/src/server.ts:3701-3747 | after an accepted mute neither of the two can send the other a request, whatever anyone does, until the database accepts an unmute by its owner |
| SocialGraph.FlagsFollow | apps/api/src/server.ts:3189-3298 | one step: each flag says what the last accepted statement of its owner about it said |
| SocialGraph.RequestsFollow | apps/api/src/server.ts:3808-3962 | one step: a stored request changes only while pending, by its target's answer, its requester's cancelling or a block between the two |
| SocialGraph.FriendshipFollows | apps/api/src/server.ts:3808-4110 | one step: two accounts are friends afterwards exactly when one accepted the other's request, or they were and neither removed or blocked the other under a text that finds the friendship |
| SocialGraph.Tables.Send | apps/api/src/server.ts:3678-3806 | sends exactly when allowed; the friendship it looks for is keyed by the text as sent |
| SocialGraph.Tables.Accept | apps/api/src/server.ts:3808-3892 | accepts a pending request of its target |
| SocialGraph.Tables.Remove | apps/api/src/server.ts:3965-4016 | ends the friendship it finds by the text as sent and records it |
| SocialGraph.Tables.Block | apps/api/src/server.ts:4018-4110 | ends the friendship it finds by the text as sent, ends pending requests and records the block |
| SocialGraph.Tables.Upsert | apps/api/src/server.ts:2054-2085 | when the database accepts it, sets the given flags and keeps the others; otherwise changes nothing |
| SocialGraph.Tables.SetMuted | apps/api/src/server.ts:3189-3261 | mutes or unmutes for the named account, leaving the block as it is, or is refused |
| SocialGraph.Tables.Unblock | apps/api/src/server.ts:3263-3298 | lifts the block for the named account, leaving the mute as it is, or is refused |
| ReplayArchive.BlobsMatchRowsAtRest | apps/api/src/server.ts:8269-8460 | whatever fails, at rest the blobs are exactly those of the live rows if and only if no step's ending orphaned a blob, every row whose blob was taken back was also deleted, and every deletion reached its blob |
| ReplayArchive.LedgerRecords | apps/api/src/server.ts:8269-8777 | a blob is recorded as orphaned, emptied, marked or removed exactly when some step of the run, by its stage and its ending, did that |
| ReplayArchive.NoFailureNoDifference | apps/api/src/server.ts:8269-8460 | when no operation of the run fails, the blobs at rest are exactly those of the live rows |
| ReplayArchive.LiveRowsHaveBlobs | apps/api/src/server.ts:8322-8331 | at any time a live row lacks its blob exactly when a step took it back after a lost commit reply, and a stored blob has the stored digest |
| ReplayArchive.PoolFailureOrphans | apps/api/src/server.ts:8271-8273 | a pool failure after the blob is stored leaves a blob without a row |
| ReplayArchive.LostCommitEmpties | apps/api/src/server.ts:8326-8331 | a lost reply to the commit leaves a live row without its blob |
| ReplayArchive.DeletedStaysDeleted | apps/api/src/server.ts:8688-8777 | in every run a row is never replaced, and a deleted one never live again |
| ReplayArchive.RepeatedUploadIsTold | apps/api/src/server.ts:8324-8445 | whatever others do and whatever fails, a further upload for a match never replaces its row and is told the first id or the conflict, unless the row was deleted, its blob is gone or its own operation failed |
| ReplayArchive.ReingestReturnsFirst | apps/api/src/server.ts:8324-8445 | uploading the same replay again, with other requests in between, returns the first id when nothing was deleted, lost or failed |
| ReplayArchive.ReingestAfterDelete | apps/api/src/server.ts:8363-8366 | a deleted match refuses every later upload, whatever happens meanwhile, and its row stays as it is |
| ReplayArchive.CreatedIsStored | apps/api/src/server.ts:8280-8322 | whoever is told that a replay was created has its row stored, with the header and digest uploaded, for good |
| ReplayArchive.DeletionIsTold | apps/api/src/server.ts:8688-8777 | whatever others do and whatever fails: a deletion that succeeds was allowed and leaves the row deleted and without its blob, one that is told not found or forbidden had no replay or no right, a failed one met a failure of its own |
| ReplayArchive.Routes.Ingest | apps/api/src/server.ts:8269-8460 | the ingest route with every way its operations can end |
| ReplayArchive.Routes.Delete | apps/api/src/server.ts:8688-8777 | marks the row, then removes the blob; unknown ids and other participants are refused |
| DrainGate.DrainSucceedsOnReadyAnswer | apps/api/scripts/deploymentDrainGate.ts:222-258 | succeeds exactly on an examined answer that is ready and draining by the deadline, and then sends no resume |
| DrainGate.FailedDrainResumesIffAsked | apps/api/scripts/deploymentDrainGate.ts:265-271 | a failed drain sends exactly one resume, last, if and only if it was asked to; every poll waits for the fetch limit or what is left of the time |
| DrainGate.PollsAreBounded | apps/api/scripts/deploymentDrainGate.ts:237-258 | polls are spaced: all but the last use up a polling interval of the time left |
| DrainGate.DrainActsOnReplies | apps/api/scripts/deploymentDrainGate.ts:212-263 | the examined answers are the bodies of the 200 replies in order; the drain skips exactly on a first 404 or 501 under the bypass, and fails only for a useless reply or because the time is up |
| DrainGate.ResumeReopens | apps/api/scripts/deploymentDrainGate.ts:197-213 | resuming posts exactly one end of the drain, and succeeds exactly on a 200 whose body is not draining and accepts joins, skips exactly on 404 or 501 under the bypass |
| DrainGate.NoKeySendsNothing | apps/api/scripts/deploymentDrainGate.ts:189-195 | without a key nothing is sent, and the bypass decides |
| DrainGate.Script.PollUntilReady | apps/api/scripts/deploymentDrainGate.ts:233-258 | the deadline loop ends and does what the specification says |
| DrainGate.Script.Run | apps/api/scripts/deploymentDrainGate.ts:172-275 | the whole gate with its failure path |
| Migration.Validate | apps/api/src/ops/migrationIntegrity.ts:37-78 | accepts exactly the acceptable histories and lists the missing checksums |
| Migration.RefusedExactly | apps/api/src/ops/migrationIntegrity.ts:37-78 | a run is refused, and then changes nothing, exactly when a recorded script is neither the release's own with its checksum nor, for an allowed older release, a newer one, or a longer history does not begin with the older release |
| Migration.CrashesDoNotMatter | apps/api/scripts/migrate.ts:33-85 | wherever runs stop and however often they repeat, the database is where one uninterrupted run stands |
| Migration.EffectsHappenOnce | apps/api/scripts/migrate.ts:62-79 | after any crashes and reruns each recorded script took effect exactly once |
| Migration.CompletedIsFinal | apps/api/scripts/migrate.ts:33-85 | a completed run records every file with its checksum, and a rerun changes nothing |
| MigrationPrefix.PrefixOnceClosed | apps/api/scripts/migrate.ts:33-85 | after any crashes and reruns the applied names are a prefix exactly when the release is not older and either there was no gap or the transactions so far have filled every checksum and closed every gap |
| MigrationPrefix.AlwaysAPrefix | apps/api/scripts/migrate.ts:58-66 | the applied names are always a prefix exactly when they were one to begin with |
| MigrationPrefix.GapIsAccepted | apps/api/src/ops/migrationIntegrity.ts:37-78 | a history with a gap that validation accepts, and the run that then executes the first script after the second |
| Migration.OlderReleaseChangesNothing | apps/api/src/ops/migrationIntegrity.ts:46-65 | an older release runs no script on a newer database, and leaves the history untouched exactly when no shared checksum is missing |
| Migration.Database.Migrate | apps/api/scripts/migrate.ts:33-85 | the script, cut off after any number of transactions |
| Leaderboard.PagesCoverTheBoard | apps/api/src/server.ts:6106-6110 | the pages together are the region's rows in rank order, each once, as many as the reported total |
| Leaderboard.RanksAreGlobal | apps/api/src/server.ts:6382-6412 | ranks strictly increase, are those among all active accounts, and follow the ranking rule |
| Leaderboard.RankCountsBetter | apps/api/src/server.ts:6382-6412 | the rows are exactly the active accounts of the region, each with a rank of one more than the number of active accounts anywhere that do better by rating, wins, matches and id |
| Leaderboard.StorageOrderDoesNotMatter | apps/api/src/server.ts:6386-6388 | a page depends on the table alone, because the key ends in the account id |
| Leaderboard.TotalCountsRows | apps/api/src/server.ts:6362-6378 | the separate count equals the number of rows |
| Leaderboard.LimitOf | apps/api/src/server.ts:6106-6109 | a page holds between one and a hundred rows |
| DirectoryWalk.CollectFiles | apps/game-web/scripts/steam-package.ts:59-82 | ends on every finite tree and lists every file exactly once, sorted |
| DirectoryWalk.ListingsFind | apps/game-web/scripts/steam-package.ts:68-78 | a path is listed exactly when following it entry by entry ends in a file |
| Contrast.BlendAssociates | apps/game-web/scripts/menu-theme-contrast-check.ts:160-169 | blending is associative, the all-zero normal form included |
| Contrast.BlendBounds | apps/game-web/scripts/menu-theme-contrast-check.ts:160-169 | every channel of a visible result lies between the layers' channels |
| Contrast.EffectiveColors | apps/game-web/scripts/menu-theme-contrast-check.ts:194-202 | over an opaque page both effective colours are opaque and displayable |
| Contrast.RatioRange | apps/game-web/scripts/menu-theme-contrast-check.ts:186-192 | the ratio is symmetric, from 1 exactly for equal luminance to 21 exactly for luminances 0 and 1 |
| Contrast.PrimaryLuminances | apps/game-web/scripts/menu-theme-contrast-check.ts:179-184 | one step: what each primary contributes to the luminance, whatever the transfer curve |
| Contrast.EvaluateTheme | apps/game-web/scripts/menu-theme-contrast-check.ts:194-212 | every check's ratio is that of its text blended over its background and the page against that background, lies between 1 and 21, and passes exactly at its minimum |

## Left out

- CommitmentStore.VerifyCoverage: a receipt time that is not a number and the rounding of the reported ratio are not modelled; a minimum ratio outside 0 to 1, for which the original throws, is excluded.
- FencedRuntimeTheorems.CommitsFormOneChain: stated for guarded runs; replies may arrive at any time. `FencedRuntimeGuards.LateInstallLosesCommits`, `LateSkipLosesWork` and `EarlyFinalLosesCommits` show exactly what is lost otherwise.
- FencedRuntimeChain.RunIsChained: stated for guarded runs, as above.
- FencedRuntimeTheorems.GuardedClearsNothing: stated for guarded runs; `AccessFollowsSnapshot` covers every run.
- FencedRuntimeTheorems.SuccessIsDurable: stated for timely runs; `FencedRuntimeGuards.LateAcknowledgeLosesWork` shows exactly what a late reply loses, and the three lemmas above the rest.
- FencedRuntimeReplies.RunIsDurable: stated for timely runs, as above.
- FencedRuntimeReplies.SkipIsSafe: stated for the newest lease; `FencedRuntimeGuards.LateSkipLosesWork` is the other case.
- After the checkpoint of an early finaliser the refresh goes on; the model then lets the request do more than the program would.
- SocialGraph.Tables.Send: the statements of the route are one atomic step; so are those of the remove route.
- SocialGraph.Tables.Upsert: whether the database accepts an update that leaves a flag unset is an input; PostgreSQL refuses every such update, with or without an existing row.
- RankedTables.Tables.SettleMatch: league, master track, season and anomaly rows are not modelled; the rating rule is a parameter.
- Lock timing, lease timeouts and connection pools: acquiring a lease only counts the token up and may happen at any time.
- The queue service's matchmaking, tokens and clocks are one abstract step function; restoring a snapshot with missing legacy fields is part of that step.
- The smoke script's direct edit of a stored reconnect deadline, which bypasses the lease.
- Due times and retry delays of claimed decisions: a claim may happen whenever the decision is pending or its lease expired.
- Session ids and file names are ordered by their text. An account id from the development-only account header is taken to be in lower case, as credentials and tables have it.
- Replay retention pruning, crashes in the middle of a replay request, and reads of a stored payload that no longer validates.
- The archived and master-track leaderboard queries, which differ only in the table they read.
- Rate limits, authentication, HTTP parsing, status codes, and the build, ruleset and loadout a verifiable session must name.
- Colour arithmetic is over real numbers, and the transfer curve with its power function is a monotone parameter.
