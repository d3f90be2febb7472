# Verification of the NinjaLabs backend protocols

A Dafny model of the parts of the backend where state is shared between workers, tabs, operators and a chain that answers
late, together with proofs of what those parts promise. `dafny verify dfyconfig.toml` checks all of it.

Four protocols and three text algorithms are modelled:

- **The NFT job queue** (`NftModel`, `NftSafety`, `NftTheorems`, `NftAttached`, `NftRequeues`, `NftCounterexample`,
  `NftWorker`). State is the two tables, one program counter and claim copy per execution, the tokens on chain and the
  broadcast transactions. Every `withClaim` write is one step; claims, re-stamps, timeouts, late landings, pauses, releases,
  errors with and without effect, stale requeues and operator requeues interleave freely, and a crashed process is one that
  takes no more steps.
- **Refresh sessions** (`SessionModel`, `SessionRaces`, `SessionSafety`, `SessionTheorems`, `SessionSchedules`,
  `SessionRevocation`, `SessionLogout`, `SessionFootprints`, `SessionCounterexamples`, `SessionService`). Rotation, grace,
  refusal, the hop-by-hop chain walk, its fallback and logout interleave at the granularity of statements and row locks
  under READ COMMITTED; each refresh keeps the moment it began as its `now()`. The intent is refresh token rotation as in
  section 4.14.2 of RFC 9700.
- **The reward ledger** (`LedgerModel`, `LedgerSafety`, `LedgerTheorems`, `LedgerRules`, `PayoutRules`, `RewardsService`).
  Whole transactions plus the manual corrections the runbook prescribes, over arbitrary runs.
- **The per-hash advisory lock** of the ledger (`LedgerHashes`, `LedgerSerial`), at lock, check, write and commit.
- **The scanner for transaction control** in migration files (`SqlLexer`, `SqlScanner`, `SqlLaws`; lexical rules as in
  section 4.1 of the PostgreSQL documentation), **mnemonic redaction** (`Redaction`), **cohort questions and answers**
  (`CohortQuestions`, `CohortAnswers`, `CohortRules`) and **the CSV printer** (`CohortCsv`, section 2 of RFC 4180). `JsText`
  and `TxHash` hold shared text rules.

The classes `NftJobWorker`, `AuthSessions` and `RewardsService` execute the statements of one call step by step on mutable
tables; each method is proved to do what the transaction function the theorems are about does, and a whole poll of the
worker is proved to be a run of the transition system.

What an operation accepts and writes is stated a second time, in terms of the rows and texts alone and with the source's own
numbers: by further `ensures` of the class methods and by the main results of `LedgerRules`, `CohortRules`, `SqlLaws` and
`SessionFootprints`. They give both directions: what is accepted and what is refused, what changes and what is left alone.

## What was found

Four intended properties do not hold of the code as it stands. Each is kept as the code has it, shown by a run, and given the
exact condition under which it does hold: a condition on the state in which the operation begins, equivalent to the promise
over every completion and every continuation.

1. **ATTACHED is not absorbing under every operator requeue.** `UPDATE nft SET status = 'MINTING'` in the mint branch is
   unconditional. If an attach job fails for good while the mint job of the same NFT is claimed again and has read the FAILED
   row, a requeue of the attach job can attach the child before the mint execution marks it MINTING
   (`NftCounterexample.AttachedCanBeUndone`). A requeue is *risky* when it makes a FAILED row with a token MINTED or ATTACHED
   again under a live execution that is still minting it. Without risky requeues ATTACHED is absorbing
   (`NftAttached.AttachedIsAbsorbing`); from every reachable state in which one is possible, some continuation loses ATTACHED
   (`NftRequeues.ARiskyRequeueUndoesAttached`); so a requeue is safe iff it is not risky (`NftRequeues.WhenARequeueIsSafe`).
2. **A refusal can miss a rotation of the presented token itself.** The consuming UPDATE waits for a locked row only if the
   row matches: when the token has expired, or its user was deactivated, while a rotation of it is uncommitted, it matches
   nothing. The first `FOR UPDATE` of the walk then waits for that rotation, but its snapshot does not hold the successor, and
   the presented token is never asked about again: the successor stays open
   (`SessionCounterexamples.WalkCanMissItsOwnRotation`). Judged at the walk's first select, the family is closed for good iff
   the presented session is revoked already, or has expired and no refresh in flight can still consume it; deactivation alone
   does not protect it, as the user may be reactivated (`SessionRevocation.WhenUsersComeBack`). If the user is not reactivated
   while the walk goes on, deactivation does as much as expiry, and a refresh whose UPDATE has not matched yet is harmless
   (`SessionRevocation.WhenTheUserStaysAway`). In particular a walk always closes the family when an already rotated token is
   reused, which is what it is for.
3. **The fallback past 32 hops is weaker than the walk.** It is one statement, so it sees one snapshot: a rotation of the
   chain's last session that commits while it waits leaves its successor open
   (`SessionCounterexamples.FallbackCanLeaveASessionOpen`), although the comment on the hop limit calls it the wider
   revocation. Judged when its statement begins, the family is closed for good iff every descendant is locked by the walk,
   revoked, or expired with no refresh in flight that can still consume it (`SessionRevocation.WhenTheFallbackSuffices`; there
   too, deactivation counts like expiry for users who are not reactivated meanwhile).
4. **Logout can be overtaken.** Its statement finds the presented session while a rotation of it is uncommitted, waits, and
   then matches neither the spent row nor the successor, which its snapshot does not hold; a refresh with the logged-out token
   then succeeds through the grace window (`SessionCounterexamples.LogoutCanBeOvertaken`). Judged when its statement begins, it
   is final iff the session is revoked already, or has expired and every refresh in flight that can still consume it began at
   least 30 seconds, or a session lifetime, before (`SessionLogout.WhenLogoutIsFinal`).

Smaller ones: an empty CSV row reads back as one empty cell (`CohortCsv.WhenCsvIsExact`); "still owed" and "can be requested"
differ exactly for an active recipient without a primary wallet, as the query's comment intends
(`PayoutRules.WhenRulesAgree`); and redaction is complete even when "redacted" is itself a listed word.

## Conventions

- NFT status PENDING is `Waiting` and FAILED is `Broken`, to keep them apart from job statuses. A job is identified by its
  idempotency key, an execution by its claim token.
- A session row is found by its own token, as sha256 is taken to be injective; fresh tokens are new; a grace copy is an
  ideal box bound to the id of its row.
- Payout and refund rows only grow, so their positions are their ids. Amounts are unbounded integers with the source's own
  30-digit limit. Random ids, fresh tokens, the clock and `toUpperCase` are parameters.
- Strings are sequences of characters; a character of the source is a UTF-16 unit.

## Model

| member | source | states |
|---|---|---|
| NftTheorems.NoLostAttach | src/nfts/nft-job.worker.ts:421-445 | In every run, if the mint jobs of a child and of its parent have succeeded, the child's attach job exists, whichever mint finished first |
| NftTheorems.ChainFirst | src/nfts/nft-job.worker.ts:393-462 | A MINTED, ATTACHING or ATTACHED row has its token id and its token is on chain; an ATTACHED child's parent token is on chain |
| NftTheorems.MintedOnce | src/nfts/nft-job.worker.ts:397-411 | Of all broadcasts for one NFT at most one ever lands |
| NftTheorems.ClaimOwnership | src/nfts/nft-job.worker.ts:96-104 | A job is PROCESSING iff it has a claim token, and then exactly one execution owns it, with the stored retry count as its own copy |
| NftTheorems.SupersededWritesNothing | src/nfts/nft-job.worker.ts:355-364 | An execution whose token was superseded changes no job row and no NFT row, whatever it does next |
| NftTheorems.FailedAtTheFifth | src/nfts/nft-job.worker.ts:318-337 | A job is FAILED iff the run recorded exactly five failures of it since its last operator requeue, and it never records more |
| NftTheorems.RunCounts | src/nfts/nft-job.worker.ts:321-330 | Along any run the stored retry count is the number of failures recorded since the last requeue |
| NftSafety.StepKeeps | src/nfts/nft-job.worker.ts:255-471 | Every step of every interleaving keeps the invariant of rows, claims, executions, broadcasts and parent/child hand-over |
| NftAttached.AttachedIsAbsorbing | src/nfts/nft-job.worker.ts:448-462 | In every run without a risky requeue (so in every run without requeues) ATTACHED stays, and a succeeded attach job has attached its child |
| NftAttached.IdleMintIsNotRisky | src/nfts/nft-status.ts:58-71 | A requeue while the NFT's mint job is not PROCESSING is never risky |
| NftAttached.OnlyALateMintDetaches | src/nfts/nft-job.worker.ts:393-418 | In every reachable state a step takes a row out of ATTACHED iff it is a status write of that NFT's live mint claim |
| NftRequeues.StepKeepsBacked | src/nfts/nft-job.worker.ts:391-445 | Every step keeps: a live mint past its probe has no token recorded, a parent of an attach job has one, and a parent with a token is MINTED or FAILED with its mint job |
| NftRequeues.ARiskyRequeueUndoesAttached | src/nfts/nft-job.worker.ts:393-411 | From every reachable state, a risky requeue has a continuation in which the row is ATTACHED and then loses that status |
| NftRequeues.WhenARequeueIsSafe | src/nfts/nft-status.ts:58-71 | After any run without risky requeues: an operator's requeue lets no row that is ever ATTACHED lose it, in any continuation without further risky requeues, iff the requeue itself is not risky |
| NftCounterexample.AttachedCanBeUndone | src/nfts/nft-job.worker.ts:395 | A run from the empty database after which one step turns an ATTACHED NFT into MINTING |
| NftCounterexample.AChildIsAttached | src/nfts/nft-job.worker.ts:391-462 | A run from the empty database after which parent and child are minted, the child is attached, and all three jobs have SUCCEEDED |
| NftWorker.ReleasedAll | src/nfts/nft-job.worker.ts:204-214 | Releasing a batch gives up exactly the claims it still owns and spends neither retries nor schedules |
| NftWorker.HeldAll | src/nfts/nft-job.worker.ts:195-202 | Holding a batch moves only the start stamps of jobs it still owns |
| NftWorker.NftJobWorker.ClaimPending | src/nfts/nft-job.worker.ts:96-104 | Claims at most ten due pending jobs no peer has locked, earliest first, each with its own new token; fewer only when none is left |
| NftWorker.NftJobWorker.HoldUnstarted | src/nfts/nft-job.worker.ts:195-202 | The new tables are those of the batch re-stamp |
| NftWorker.NftJobWorker.ReleaseUnstarted | src/nfts/nft-job.worker.ts:208-214 | The new tables are those of the batch release |
| NftWorker.NftJobWorker.RequeueStaleJobs | src/nfts/nft-job.worker.ts:227-243 | Exactly the jobs PROCESSING for over 15 minutes go back to PENDING, with the NFTs they left MINTING |
| NftWorker.NftJobWorker.Advance | src/nfts/nft-job.worker.ts:370-471 | The next statement of an execution changes tables and program counter as the transition system says |
| NftWorker.GoReaches | src/nfts/nft-job.worker.ts:370-471 | Each action takes an undisturbed execution from one stage to the next, each stage being the rows and tokens as they were at its start with the listed changes |
| NftWorker.SettledIsProcessed | src/nfts/nft-job.worker.ts:279-337 | Recording the result at the last stage leaves exactly the rows that processing the claim is to leave |
| NftWorker.NftJobWorker.QueueWaitingChildren | src/nfts/nft-job.worker.ts:421-431 | Every MINTED child gets an attach job; one already there is only pulled forward, and only while PENDING; no other job moves |
| NftWorker.NftJobWorker.Conclude | src/nfts/nft-job.worker.ts:279-337 | The row each outcome leaves: Done gives SUCCEEDED; Deferred PENDING an hour later; a pause PENDING with the schedule kept and an unminted MINTING row back to PENDING; an error or timeout one more retry in ten minutes or, from the fifth, FAILED with the row FAILED unless it was attached; a lost claim changes nothing |
| NftWorker.NftJobWorker.Execute | src/nfts/nft-job.worker.ts:370-471 | Every action of an execution, to its end, is a run of the transition system in which no other execution moves, and an owned claim's execution stands, at every stage, where its row, its token on chain and the pause setting say |
| NftWorker.NftJobWorker.Process | src/nfts/nft-job.worker.ts:255-352 | The exact rows and chain after processing one claim: a mint job whose token exists or whose broadcast goes through is SUCCEEDED, its row MINTED with its token id and on chain, its attach jobs queued; an attach job is SUCCEEDED with the row ATTACHED if its parent is ready, and put off for an hour if not; pauses and a missing configuration spend nothing; failures cost a retry. It is a run of the transition system, after which the claim is given up |
| NftWorker.NftJobWorker.RunBatch | src/nfts/nft-job.worker.ts:168-180 | The tables after a batch: while the tail is held each claim in turn is processed, and on a stop the rest is given back. It is a run, and every claim of the batch is dealt with |
| NftWorker.NftJobWorker.PollOnce | src/nfts/nft-job.worker.ts:157-181 | The tables after a whole poll: stale jobs given back, the earliest due jobs claimed, the batch worked through; nothing while minting is switched off, and no claim while stopping. It is a run of the transition system, so every theorem about runs holds of it |
| NftWorker.ClaimRuns | src/nfts/nft-job.worker.ts:96-104 | The one-statement claim of a batch is a run of single claims, after which the whole batch waits |
| NftWorker.NftJobWorker.Retry | src/nfts/nft-status.ts:62-71 | A FAILED job is requeued with its count cleared and its NFT restored by what it had reached; any other job is untouched |
| SessionTheorems.FamiliesStayLinear | src/auth/auth-sessions.ts:85-109 | In every run a session has at most one successor, of the same user, and is then revoked; a family has at most one open session |
| SessionRevocation.WhenARefusalClosesTheFamily | src/auth/auth-sessions.ts:85-184 | Judged at the walk's first select, for any set of users who are not reactivated while it goes on: however it goes on to commit, the whole family of the presented token is then revoked, in every continuation, iff the presented session is revoked, or is expired or of a deactivated one of these users and no refresh in flight can still consume it |
| SessionRevocation.WhenUsersComeBack | src/auth/auth-sessions.ts:90-101 | With users reactivated at any time: iff the session is revoked, or is expired and wanted by no refresh in flight |
| SessionRevocation.WhenTheUserStaysAway | src/auth/auth-sessions.ts:90-101 | With its user not reactivated during the call: iff the session is revoked, or is expired or its user inactive, and no refresh in flight has matched it or can still match it |
| SessionRevocation.RefusalClosesTheFamily | src/auth/auth-sessions.ts:154-184 | In that case the family closed includes successors of descendants whose rotations had not committed when the walk began |
| SessionRevocation.WalkIsOvertaken | src/auth/auth-sessions.ts:167-178 | Otherwise some completion of the walk leaves a session of the family open |
| SessionRevocation.UncontendedStays | src/auth/auth-sessions.ts:90-101 | A session that is spent, or beyond a new refresh and not being consumed, stays so through every step that reactivates none of the given users |
| SessionCounterexamples.WalkCanMissItsOwnRotation | src/auth/auth-sessions.ts:90-178 | A run in which a token expires while its rotation is uncommitted, and the walk of a second refresh commits with the successor open and unexpired |
| SessionTheorems.WalkTerminates | src/auth/auth-sessions.ts:159-178 | Every step of a walk brings it closer to its end, within 32 hops |
| SessionTheorems.FallbackMissesLateSuccessors | src/auth/auth-sessions.ts:160-167 | After the fallback a descendant is open iff it was open before and was committed during the fallback's statement |
| SessionRevocation.WhenTheFallbackSuffices | src/auth/auth-sessions.ts:160-167 | Judged when the fallback's statement begins, for any set of users who are not reactivated while it goes on: however it goes on to commit, the family is then revoked, in every continuation, iff each descendant is locked by the walk, revoked, or expired or of a deactivated one of these users with no refresh in flight that can still consume it |
| SessionRevocation.FallbackIsOvertaken | src/auth/auth-sessions.ts:38-44 | If a descendant can still be consumed, some completion of the fallback leaves its successor open |
| SessionCounterexamples.FallbackCanLeaveASessionOpen | src/auth/auth-sessions.ts:160-167 | A run with a chain of 33 rotations and one in flight after which the family still has a live session |
| SessionTheorems.RotationIsSound | src/auth/auth-sessions.ts:90-109 | A rotation's token belongs, at its commit, to an open session of the same user |
| SessionTheorems.GraceIsSound | src/auth/auth-sessions.ts:113-132 | A token answered in grace belongs to an open session of the same, active user, unexpired when the refresh began, and no row changes |
| SessionTheorems.GrantsAgree | src/auth/auth-sessions.ts:85-132 | All refreshes of one token that ever succeed return the same successor, the only row derived from it |
| SessionLogout.WhenLogoutIsFinal | src/auth/auth-sessions.ts:237-246 | Judged when the logout's statement begins: however it goes on to commit, no refresh of the token that begins later succeeds, in any continuation, iff the session is revoked, or is expired and every refresh in flight that can consume it began the grace window or a session lifetime ago |
| SessionLogout.LogoutIsFinal | src/auth/auth-sessions.ts:237-246 | In that case every later refresh fails: none rotates, none is answered in grace |
| SessionLogout.LogoutIsOvertaken | src/auth/auth-sessions.ts:113-132 | Otherwise some completion is followed by a later refresh of the token that is answered in grace |
| SessionFootprints.WhatALogoutCloses | src/auth/auth-sessions.ts:237-246 | From the beginning of its statement to its commit, in any interleaving, a logout closes exactly the token's own session and the successor rotated less than 30 seconds before the statement began, each if it stood then and is still open |
| SessionFootprints.WhatCloses | src/auth/auth-sessions.ts:81-246 | In every run an open session is closed only by its own rotation, by the walk of a token it derives from, by the fallback for its user, or by a logout with its own token or its predecessor |
| SessionCounterexamples.LogoutCanBeOvertaken | src/auth/auth-sessions.ts:237-246 | A run in which a refresh with the logged-out token succeeds through the grace window |
| SessionSafety.StepKeeps | src/auth/auth-sessions.ts:81-246 | Every statement, lock and commit keeps rows linear, copies bound to their rows, locks apart, grants sound, and complete what walks and sweeps have collected so far |
| SessionModel.FamilyIsALine | src/auth/auth-sessions.ts:142-152 | Of two sessions of one family one descends from the other, and if they differ the elder is revoked |
| SessionModel.ClosedHoldsDescendants | src/auth/auth-sessions.ts:154-184 | A set with the session and every successor of its members holds all descendants |
| SessionService.WithinIsDistance | src/auth/auth-sessions.ts:159-178 | What the walk has reached after k hops is exactly what a chain of at most k links leads to |
| SessionService.SettledIsDescendants | src/auth/auth-sessions.ts:159-184 | When a hop finds nothing new, the collected rows are exactly the descendants |
| SessionService.WhenTheWalkSuffices | src/auth/auth-sessions.ts:159-184 | The walk ends before the hop limit iff every descendant is reached in at most 31 rotations |
| SessionService.NoDescendantStaysOpen | src/auth/auth-sessions.ts:154-184 | With nothing in flight, walk or fallback, no descendant stays open and only sessions of the same user are touched |
| SessionService.AuthSessions.constructor | src/auth/auth-sessions.ts:53-59 | Starts without sessions, with a positive lifetime |
| SessionService.AuthSessions.Issue | src/auth/auth-sessions.ts:65-70 | Adds one open session without predecessor and keeps families linear |
| SessionService.AuthSessions.SaveSession | src/auth/auth-sessions.ts:210-230 | Inserts the row of a login or of a rotation, the latter with the spent token and a copy bound to its own id |
| SessionService.AuthSessions.Refresh | src/auth/auth-sessions.ts:81-140 | An open, unexpired session of an active user is rotated; one rotated less than 30 seconds ago is answered with its successor if that is such a session; anything else is refused, and the chain revoked. A success names a live session of the same active user, the only one derived from the token |
| SessionService.AuthSessions.RevokeChain | src/auth/auth-sessions.ts:154-184 | Revokes exactly the descendants, or past the hop limit every open session of the user found on the first hop |
| SessionService.AuthSessions.RevokeAllSessionsOfUser | src/auth/auth-sessions.ts:38-44 | Revokes exactly the open sessions of the user |
| SessionService.AuthSessions.Revoke | src/auth/auth-sessions.ts:237-246 | A row is closed iff it is open and is the token's own, or the successor of a rotation of it less than 30 seconds ago; nothing else changes. Run alone, no later refresh of the token can succeed |
| LedgerTheorems.MoneyIsConserved | src/rewards/rewards.service.ts:137-143 | After every run allocated payouts are within the posted and the deposited amount, paid plus refunded within the deposit, and equal to it once REFUNDED |
| LedgerTheorems.PaidIsFinal | src/rewards/rewards.service.ts:235-241 | A PAID payout row never changes again |
| LedgerTheorems.RefundedIsFrozen | scripts/record-refund.js:96-112 | A REFUNDED reward keeps status, deposit, paid total and refunded amount in every continuation |
| LedgerTheorems.StatusAgrees | src/rewards/rewards.service.ts:297-324 | The stored status of a funded reward is the one recomputed from its payout rows: FUNDED iff nothing is paid, PAID iff something is paid, nothing is unsettled and winners or cap are reached |
| LedgerTheorems.TwoPersonRule | src/rewards/rewards.service.ts:167-183 | Without the self-approval setting, an approved, broadcasting or paid payout was approved by another operator than the one who requested it |
| LedgerTheorems.OnePayoutPerAward | src/rewards/rewards.service.ts:135-150 | A submission has at most one payout row on a reward, whatever its status |
| LedgerRules.WhenADepositIsAccepted | src/rewards/rewards.service.ts:52-88 | Iff the reward waits for its deposit, its bounty is not deleted, the amount covers the posted one and the hash is on no payout, refund or deposit; it funds that reward and nothing else changes |
| LedgerRules.WhenAPayoutIsGranted | src/rewards/rewards.service.ts:95-143 | Iff the submission is approved and of the reward's bounty, that bounty is not deleted and in progress, the reward is funded with room within posted and deposited amount, the submission has no payout on it, and the recipient is active with a wallet |
| LedgerRules.WhatARequestWrites | src/rewards/rewards.service.ts:114-153 | The new row carries the wallet of the submitter or, without one, of the agent's owner; besides it only the reward's status can change, to PARTIALLY_PAID if something is paid already |
| LedgerRules.WhatAdvanceWrites | src/rewards/rewards.service.ts:305-324 | PAID iff no row of the reward is unsettled and the paid rows reach the winners, or the paid sum the posted or deposited amount; PARTIALLY_PAID otherwise; nothing before the first paid row |
| LedgerRules.WhenAnApprovalIsAccepted | src/rewards/rewards.service.ts:167-183 | Iff the payout awaits approval and the operator is not the one who requested it, or self-approval is on |
| LedgerRules.WhenAPaymentIsRecorded | src/rewards/rewards.service.ts:204-262 | Iff the payout is approved or being sent, its submission still approved and of somebody, and the hash on no deposit, no refund and no paid payout of another bounty |
| LedgerRules.WhenARefundIsRecorded | scripts/record-refund.js:67-112 | Iff the bounty is CANCELLED, the reward funded, every payout of it paid, cancelled or failed, something is left of the deposit and the hash recorded nowhere; all that is left goes back |
| LedgerRules.EveryPayoutWasDeserved | src/rewards/rewards.service.ts:95-150 | In every run each payout row was granted by a request at a moment at which its submission was approved for its reward's bounty, the bounty in progress, and its wallet the recipient's |
| LedgerRules.EveryPaymentWasApproved | src/rewards/rewards.service.ts:204-249 | In every run each PAID row was recorded at a moment at which it was approved or being sent and its submission approved, with a hash that fitted |
| LedgerRules.EveryRefundWasDue | scripts/record-refund.js:67-112 | In every run each refund was recorded while its bounty was CANCELLED and no payout was open, and returned all that was left |
| LedgerRules.EndedStaysEnded | src/bounties/bounty-status.ts:40-49 | A COMPLETED or CANCELLED bounty stays that in every continuation |
| LedgerRules.PayoutsMove | docs/runbook.md:264-300 | A step moves a payout's status only along the listed ways, changes its amount only before it is sent and then clears its approval, and sets an approval only through an accepted one |
| LedgerSafety.StepKeepsBooks | src/rewards/rewards.service.ts:52-324 | Every operation, manual correction and outside change keeps the account of every reward and every payout row sound |
| LedgerSafety.AllocatedSplits | src/rewards/payout-status.ts:46-49 | What is allocated is what is paid plus what is unsettled |
| LedgerSafety.AdvanceOk | src/rewards/rewards.service.ts:305-324 | A reward sound up to its stored status is sound after the recomputation |
| LedgerHashes.OneHashOneDirection | src/rewards/rewards.service.ts:55-59 | Over every interleaving, with colliding lock keys too, deposit, payout and refund hashes are disjoint, no deposit or refund hash is used twice, and payouts sharing a hash are of one bounty |
| LedgerHashes.StepKeeps | src/rewards/rewards.service.ts:204-241 | Whatever a transaction has checked under the lock still holds until it commits |
| LedgerHashes.WithoutTheLock | scripts/record-refund.js:100-103 | The same steps without the advisory lock record one hash as payout and as refund |
| LedgerSerial.LedgerRunsAreMachineRuns | src/rewards/rewards.service.ts:52-262 | Every run of whole ledger transactions is, on the hash columns, a run of the interleaved machine |
| LedgerSerial.LedgerHashesKeepDirection | scripts/record-refund.js:78-94 | So the ledger's hashes keep to one direction after every run |
| PayoutRules.RulesAgree | src/rewards/payout-status.ts:108-176 | For an approved submission of an in-progress, undeleted bounty whose recipient has a primary wallet, it is owed something iff an allocated payout is unpaid or a request of amount 1 would succeed |
| PayoutRules.RulesAgreeInEveryRun | src/rewards/payout-status.ts:108-176 | The same after every run of the ledger, which keeps one row per award |
| PayoutRules.WhenRulesAgree | src/rewards/payout-status.ts:125-132 | Without the wallet the two agree iff the recipient has left, an allocated payout is unpaid, or nothing could be requested |
| PayoutRules.OwesMeansUnpaid | src/rewards/payout-status.ts:152-176 | The counts of the query say that something owed is not paid |
| PayoutRules.OwesSplits | src/rewards/payout-status.ts:152-176 | Something is owed iff a payout is unsettled or, for an active recipient, one could be requested |
| PayoutRules.RequestLeavesOwed | src/rewards/rewards.service.ts:144-153 | An accepted request leaves the winner owed and the award not requestable again |
| RewardsService.RewardsService.constructor | src/rewards/rewards.service.ts:34-47 | Starts with empty tables and the given self-approval setting |
| RewardsService.RewardsService.ConfirmDeposit | src/rewards/rewards.service.ts:52-88 | Errors in the source's order; accepted iff the deposit is due, covers the posted amount and its hash is not recorded anywhere, and then the tables of the deposit |
| RewardsService.RewardsService.RequestPayout | src/rewards/rewards.service.ts:95-158 | Errors in the source's order; accepted iff the award is deserved and fits (as in LedgerRules), and then the tables with the new row and recomputed status |
| RewardsService.RewardsService.MarkApproved | src/rewards/rewards.service.ts:167-193 | Errors in the source's order; accepted iff an approval is awaited and the operator may give it, and then the approved row |
| RewardsService.RewardsService.MarkPaid | src/rewards/rewards.service.ts:204-269 | Errors in the source's order; accepted iff the payout may be sent and the hash fits, and then the paid row with recomputed status; the UPDATE is rolled back when the submission is no longer approved |
| RewardsService.RewardsService.AdvanceRewardStatus | src/rewards/rewards.service.ts:305-324 | The reward as recomputed from its payout rows |
| RewardsService.RewardsService.RecordRefund | scripts/record-refund.js:96-124 | Refusals in the script's order; accepted iff the bounty is CANCELLED, no payout is open, something is left and the hash is new, and then the closed reward with its refund row |
| TxHash.NormalFormIsFixed | src/common/validation/tx-hash.ts:11-17 | A normalised hash is `0x` and 64 lower-case digits, and normalises to itself |
| TxHash.SpellingsAgree | src/common/validation/tx-hash.ts:3-7 | Two spellings are recorded as one hash iff their digits agree up to case |
| TxHash.DigitsAreAHash | src/common/validation/tx-hash.ts:8-17 | 64 hex digits, with or without `0x` and white space around, are accepted and stored as `0x` and the digits in lower case |
| TxHash.WhenATextIsAHash | src/common/validation/tx-hash.ts:8-14 | Nothing else is accepted |
| SqlScanner.FindTransactionControl | scripts/migrate.js:80-167 | The scan returns the control statements of the text cut into statements at top-level semicolons outside atomic bodies |
| SqlScanner.ScanIsCompositional | scripts/migrate.js:80-167 | If a text ends at top level, scanning it, `;` and a second one gives its hits and those of the second shifted by its line breaks |
| SqlScanner.AppendedCommitIsFound | scripts/migrate.js:71-79 | COMMIT after any text that ends at top level is reported, on its own line |
| SqlLaws.TextIsRead | scripts/migrate.js:106-164 | A text written out of words, signs, blanks, comments, quotes and dollar quotes is read as exactly those elements, each with its line, whatever follows |
| SqlLaws.HitsOfElements | scripts/migrate.js:80-167 | So what is found in such a text is what its elements say |
| SqlLaws.DollarQuotesAreHidden | scripts/migrate.js:139-143 | For every legal tag within 64 characters, whatever stands before the first repetition of the tag is hidden, and the scan goes on behind it as at the start of a text |
| SqlLaws.QuotesAreHidden | scripts/migrate.js:121-132 | A quoted body is hidden, doubled quotes and all |
| SqlLaws.PrefixedQuotesAreHidden | scripts/migrate.js:122-126 | A quote behind a word is an escape string iff the word is E or e; either way its body is hidden |
| SqlLaws.QuotedNamesAreHidden | scripts/migrate.js:133-138 | So is a quoted identifier |
| SqlLaws.LineCommentsAreHidden | scripts/migrate.js:109-111 | A line comment is passed over and counts one line |
| SqlLaws.BlockCommentsAreHidden | scripts/migrate.js:112-120 | A block comment is passed over with the comments nested in it, and counts its line breaks |
| SqlLaws.FirstWordsDecide | scripts/migrate.js:90-97 | Whatever a statement goes on with, its first two words decide: BEGIN, COMMIT, END, ROLLBACK and ABORT are reported, START and PREPARE with TRANSACTION, and nothing else |
| SqlLaws.TwoWordsDecide | scripts/migrate.js:65-69 | The same of a statement of two words |
| SqlLaws.OneWordDecides | scripts/migrate.js:65-69 | And of a statement of one word |
| SqlLaws.AtomicBodiesAreHidden | scripts/migrate.js:144-161 | Of a function with a BEGIN ATOMIC ... END body whose CASEs and ENDs balance nothing is reported, whatever statements the body holds, and behind its END the scan goes on as at the start of a text |
| SqlScanner.HitSits | scripts/migrate.js:90-104 | Every reported line is one more than the line breaks before the very place at which the scan reads the first token of the statement, a token that is the first of the text or follows a `;` |
| SqlScanner.TokenSits | scripts/migrate.js:98-104 | The token at each position of the list is read at the place at that position of the list of reading places, and its line is one more than the line breaks before that place |
| SqlScanner.TokensInOrder | scripts/migrate.js:98-104 | Lines do not go backwards and stay within the text |
| SqlScanner.CommentEnd | scripts/migrate.js:112-120 | Ends a nested block comment where its levels close |
| SqlScanner.QuoteEnd | scripts/migrate.js:121-140 | Ends a string or quoted identifier at its closing quote, past doubled quotes and escapes |
| SqlScanner.WordEnd | scripts/migrate.js:146-149 | Ends a word at the first character that is not of an identifier |
| SqlScanner.Advance | scripts/migrate.js:98-100 | The line is one more than the line breaks passed |
| SqlScanner.EndStatement | scripts/migrate.js:90-97 | Reports a statement by its first keyword, START and PREPARE only with TRANSACTION |
| SqlScanner.NoteToken | scripts/migrate.js:101-104 | The first token of a statement fixes its line |
| SqlLexer.Lex | scripts/migrate.js:106-164 | Every lexical element takes at least one character and no more than there are: the scan always advances |
| SqlLexer.LexGrows | scripts/migrate.js:106-164 | A closed element reads the same when `;` and more text follow |
| SqlLexer.LexAfterBreak | scripts/migrate.js:122-141 | After a character no word can hold, such as `;`, an element reads as at the start of a text, escape prefixes and dollar quotes included |
| Redaction.RedactMnemonicRuns | src/nfts/nft-job.worker.ts:32-50 | The result is the message with exactly the words among three consecutive listed ones cut, one mark per run |
| Redaction.RedactionIsComplete | src/nfts/nft-job.worker.ts:28-31 | No three consecutive listed words are left, and the words are those of the message with each long run made one mark |
| Redaction.OnlyRunsAreRedacted | src/nfts/nft-job.worker.ts:28-31 | A message is changed iff three consecutive words of it are listed; a second pass changes nothing |
| Redaction.RunIsExposed | src/nfts/nft-job.worker.ts:40-46 | A maximal run is cut as a whole or not at all, according to its length |
| Redaction.TheRunIsCut | src/nfts/nft-job.worker.ts:40-50 | A run of three or more listed words between clean texts is replaced by the mark from its first letter to its last, and all around it stays to the character |
| Redaction.CaseIsIgnored | src/nfts/nft-job.worker.ts:38-40 | Messages that differ only in letter case have the same words cut |
| Redaction.WhenAWordIsListed | src/nfts/nft-job.worker.ts:38-40 | A word is listed iff it is, up to letter case, one of the list |
| CohortQuestions.ValidateQuestions | src/cohorts/cohort-questions.ts:158-211 | The nested loops compute the normalised list, or refuse |
| CohortQuestions.NormalizeOptions | src/cohorts/cohort-questions.ts:184-206 | The option loop computes the normalised options, or refuses |
| CohortQuestions.NormalizeQuestion | src/cohorts/cohort-questions.ts:165-210 | One question as normalised, refused when its id was seen before |
| CohortQuestions.AcceptedIsValid | src/cohorts/cohort-questions.ts:158-211 | An accepted list has unique question ids, unique option ids, and meets every limit |
| CohortQuestions.AcceptedIsFixed | src/cohorts/cohort-questions.ts:153-158 | Sent back against itself, an accepted list is accepted unchanged |
| CohortQuestions.LocalizedIsFixed | src/cohorts/cohort-questions.ts:139-151 | Accepted texts are accepted again as they are |
| CohortRules.WhenQuestionsAreAccepted | src/cohorts/cohort-questions.ts:158-211 | A list is accepted iff there are at most thirty questions, no id twice, and each keeps the id of a stored question or has none, with good texts and, if and only if it is a choice, two to twenty good options; then id, kind, required, trimmed texts and options are stored as sent |
| CohortAnswers.ValidateAnswers | src/cohorts/cohort-questions.ts:220-242 | The loops compute the snapshot, or the first refusal in question order |
| CohortAnswers.Snapshots | src/cohorts/cohort-questions.ts:231-241 | The question loop builds the snapshot in question order |
| CohortAnswers.AnswerOrderIsFree | src/cohorts/cohort-questions.ts:222-229 | The order of the answers changes neither snapshot nor refusal |
| CohortAnswers.ChoiceOrdersAreFree | src/cohorts/cohort-questions.ts:263-271 | Nor does the order of the choices in each answer |
| CohortRules.WhenAnAnswerIsAccepted | src/cohorts/cohort-questions.ts:245-282 | A choice answer is accepted iff its text is blank and its ids are distinct ids of options, one for SINGLE_CHOICE, with a good detail where one asks for it; a text answer iff it has no choice and no detail and is blank or a good line within 200 or 2000. Stored are exactly the chosen options, or the trimmed text. Only a missing detail has its own error |
| CohortRules.WhenAnswersAreAccepted | src/cohorts/cohort-questions.ts:220-242 | A call is accepted iff it has at most thirty answers, each to its own known question and acceptable for it, and every required question is answered |
| CohortRules.WhatIsStored | src/cohorts/cohort-questions.ts:231-241 | A question has an entry iff an answer to it says something, and the entry is that answer |
| CohortAnswers.SnapshotIsCanonical | src/cohorts/cohort-questions.ts:213-242 | A snapshot follows the questions, answers every required one, and each answer fits its question, choices in option order, a detail iff one asks for it |
| CohortAnswers.ResubmissionIsStable | src/cohorts/cohort-questions.ts:220-282 | Submitting a stored snapshot again stores the same snapshot |
| CohortCsv.CsvRoundTrip | src/cohorts/cohort-csv.ts:17-24 | After its mark the file reads back as the neutralised cells, whatever they contain |
| CohortCsv.WhenCsvIsExact | src/cohorts/cohort-csv.ts:22-24 | It reads back exactly iff no row is empty |
| CohortCsv.NothingReadIsAFormula | src/cohorts/cohort-csv.ts:11-15 | No cell read back has `=`, `+`, `-` or `@` as its first visible character, or a tab or CR first |
| CohortCsv.WhatATextShows | src/cohorts/cohort-csv.ts:11-15 | A text is shown as it is, and behind an apostrophe iff its first visible character is one of these or it begins with a tab or CR |
| CohortCsv.WhatOtherCellsShow | src/cohorts/cohort-csv.ts:17-20 | A missing value shows nothing, a date its ISO text, a list its items between semicolons |

## Left out

- Job types RETRY_MINT, RETRY_ATTACH and status CANCELLED: no code writes them, so no job of the model has them.
- NFT status ATTACHING is kept in the guards but never written, as in the code.
- The poll timer, shutdown draining, alerts and logging: a stop is a flag read before claiming and before each job.
- NftWorker.NftJobWorker.PollOnce: one clock reading for the whole poll, no timeout and no database error; those, and other workers in between, are steps of the transition system.
- The rest of error cleaning (32-byte hex, NUL characters, the length limit): single library replacements.
- NftWorker.NftJobWorker.Advance: the chain's answers are a set of tokens given to the call; sending the mint is a step of the transition system.
- Session clean-up by the maintenance job, client addresses and access tokens: they change nothing the proofs are about.
- SessionTheorems.RotationIsSound: the session is unexpired at the commit unless the transaction itself outlasted the session lifetime, which the code does not exclude.
- SessionRevocation.WhenARefusalClosesTheFamily: the presented token belongs to a session.
- SessionLogout.WhenLogoutIsFinal: the token belongs to a session and the lifetime is positive; refreshes that began before the logout committed count as concurrent with it.
- Changes of `max_winners`, edits of a funded reward's amount, wallet replacement and its trigger, forfeited awards, and the blockers of bounty transitions: the ledger is proved with bounties, people and wallets changing freely, and transitions unblocked.
- Audit rows other than refunds, the child mint queued by a payment, and the dry run and prompts of the refund script: records and wiring.
- LedgerHashes.OneHashOneDirection: the bounty row lock and the recipient lock are not modelled, which only adds interleavings.
- Decimal spelling of amounts: an amount is the integer its string denotes.
- CohortQuestions.ValidateQuestions: inputs are typed, so refusals of values of a wrong JavaScript type are not in the model; what counts as visible, plain and without reordering characters is a parameter, and the ids `newId` returns are given with its promise that they are new.
- Reading old fixed columns as answers and the CSV value of one answer: pure mappings with easy claims.
- SqlLaws.TextIsRead: a lone `$` is a sign only where no tag could begin, and words may hold `$`; texts that end inside a comment or quote have no elements.
- CohortRules.WhenAnswersAreAccepted: the questions are ones an operator could store.
- SqlScanner.FindTransactionControl: walking the migration directory and raising the error are left out; `toUpperCase` is any function that leaves the empty string alone.
- CohortCsv.CsvRoundTrip: cells are absent, dates, lists or texts; numbers and booleans arrive as their text.
- Controllers, guards, OAuth, the chain client, cryptography, notices, media and listings: foreign calls or records without deep state.
