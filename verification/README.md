# Verified model of the image gateway

This project models the parts of `services/api-gateway` that move money, talk to image
providers and page through history, and proves what they promise for every input, every
run and every interleaving. `dafny verify dfyconfig.toml` checks all of it.

The pieces, and the modules they live in:

- **Credit ledger** (`Ledger`, `Spending`, `Conservation`, `Replay`, `CreditStore`). Wallets,
  expiring batches, append-only entries and the per-operation projection, in whole cents.
  Each database transaction is one step; `CreditStore.Store` runs the transactions statement
  by statement and is proved against the step functions, rollback included.
- **Image task protocol** (`ImageTasks`, `Submission`, `RepairEdits`, `LedgerEffects`, `Settlement`, `Admission`,
  `Polling`, `PollSpacing`, `LateStarts`, `AcceptedTask`, `ImageStore`). One transition per statement, provider call, crash or timeout, over rows
  shared by any number of workers. The session lock around a worker is absent on purpose: safety
  rests on the claim token and the submission fence alone. Any worker may start on any open
  task at any time, and a crash is a worker that stops in whatever phase it reached. `ImageStore.Store`
  runs the transactions and is proved against the transitions, so the run theorems cover it.
- **Provider replies** (`ProviderResults`). What a reply says about its task and which items it delivers.
- **Provider capacity and scheduler accounting** (`Leases`, `SchedulerReceipts`).
- **History pages** (`RowOrder`, `HistoryList`, `History`, `HistoryWalk`).
- **Media tokens and multipart forms** (`MediaTokens`, `Multipart`). The script between hiding and
  restoring is an arbitrary tree. Objects list their entries, with unique keys, in the order they are visited.
- **Group hierarchy, group reachability, token scopes** (`Digraph`, `Groups`, `Scopes`).
- **Task input normalisation** (`TaskInput`).

What comes from outside is a parameter: clocks, drawn identifiers, expiry settings, quotes, claim
tokens (fresh by construction), provider replies, which texts decode to an image, and the length of
serialised JSON. Text is ordered character by character, as a byte-wise collation would.

## What the code does not promise

Eight places where a plausible promise fails; each has a concrete input and an exact condition.

- Polls of an accepted provider task can coincide: a worker run takes its row without looking at the claim
  or the due time, so a claimant that stalled past its claim polls at once although another run has just polled
  and put the next poll off (`LateStarts.StalledStartsCoincide`, reached from an initial system by
  `AcceptedTask.LatePollsReachable`). Polls are spaced and bounded in every run whose workers start on time: on a row they
  could poll, the second of the last poll has passed and no delivery is pending that comes before polling ends
  (`PollSpacing.PollsSpaced`, `PollSpacing.PollsBounded`). This is exact: after any other start there is a continuation, with
  every later start on its own current claim, in which a poll comes too soon (`LateStarts.StartSpacesIff`,
  `LateStarts.OnTimeExactly`). A run that starts on its own current claim is on time (`PollSpacing.PunctualRunsOnTime`).
- Even then a query can reach the provider together with the next one, if its worker stalls past its claim between
  reserving and sending (`LateStarts.StalledQueriesCoincide`). Queries sent under a live claim are spaced like the polls
  (`PollSpacing.QueriesSpaced`).
- A main lease row keeps its member when it is taken again. Capacity survives exactly when that
  member has room (`Leases.TakeMainKeepsCapacityIff`, `Leases.RenewKeepsCapacityIff`). Tasks with a version-2 snapshot pin their
  member, so their capacity never breaks this way (`Leases.PinnedCapacityKept`); a task from before version 2 that comes
  back for another member after its lease lapsed overbooks the first (`Leases.MemberChangeOverbooks`).
- Results never outnumber acquisitions in total, but they can for one member, when a repair step is
  acquired again by another member (`SchedulerReceipts.HandedOverRepairMiscounts`). It happens exactly when more foreign
  results count on the member than it has receipts to spare (`SchedulerReceipts.ResultsBalance`), and the step that does it
  is characterised by `SchedulerReceipts.NextOverdrawsIff`.
- No plain form field holds a token, but a script can embed one inside a longer text
  (`Multipart.TokenTextCanLeak`) or inside a key (`Multipart.TokenKeyCanLeak`). It leaks exactly when it was put into a longer
  text, a key, or the name of a written field (`Multipart.LeaksIffEmbedded`).
- Normalising scopes twice is idempotent exactly when the result has at most 32 scopes
  (`Scopes.IdempotentIffShort`), so it always is for a registry of at most 32 scopes
  (`Scopes.IdempotentForSmallRegistry`), the shipped one of two included (`Scopes.ShippedIdempotent`). It would fail first
  with a 33rd scope (`Scopes.WideOverflows`).
- A blank alternative spelling conflicts with a non-blank main spelling, though not the other way
  round (`TaskInput.BlankAlternativeConflicts`, `TaskInput.MergeSucceedsIff`).
- A retry without a generation id is a new request (`TaskInput.UnnamedRetryDiffers`): two tries share a normal form
  exactly when the caller named the generation (`TaskInput.RetryStableIff`).

## Model

| member | source | states |
|---|---|---|
| Spending.SpendingOrderListsSpendable | services/api-gateway/credits_uol.go:288-288 | the spending order lists exactly the user's spendable batches, each once, sorted by expiry, source, issue time and id |
| Spending.DrainTakesExactly | services/api-gateway/credits_uol.go:310-323 | what leaves the active batches plus what stays missing is the requested amount |
| Spending.DrainUsesPrefix | services/api-gateway/credits_uol.go:310-323 | a drain empties a prefix of the order, uses part of at most one batch and leaves every later batch untouched |
| Spending.SpendingOrderOptimal | services/api-gateway/credits_uol.go:288-323 | for every time T, at least as much credit outlasts T as after any other way of spending the same amount |
| Spending.DrainSuffices | services/api-gateway/credits_uol.go:285-326 | with nothing due, an amount covered by the active credit is always fully drawn |
| Conservation.ExpireAgrees | services/api-gateway/credits_uol.go:86-101 | expiring keeps balance, ledger sums, projections and references in agreement and leaves nothing due |
| Conservation.ExpiryClampIdle | services/api-gateway/credits_uol.go:86-101 | in an agreeing ledger the GREATEST(0, ...) clamp of an expiry never changes the balance |
| Conservation.ConsumeAgrees | services/api-gateway/credits_uol.go:243-358 | a consumption keeps the whole ledger in agreement |
| Conservation.BatchesAlwaysSuffice | services/api-gateway/credits_uol.go:324-326 | after the balance check the insufficient-batches branch is unreachable |
| Conservation.GrantAgrees | services/api-gateway/credits_uol.go:130-241 | a grant or refund keeps the whole ledger in agreement |
| Conservation.RefundGuardSuffices | services/api-gateway/credits_uol.go:195-208 | the guard of the refund path implies that the later rebuild check passes |
| Conservation.RefundAcceptedWithinNet | services/api-gateway/credits_uol.go:195-241 | a well-formed refund is accepted if and only if it stays within the projection's net amount, which it lowers by exactly what it returns, also for a frozen wallet |
| Conservation.RunAgrees | services/api-gateway/credits_uol.go:61-374 | in every run of the ledger from empty tables, balance = active remaining credit = earned - spent - expired, and each projection row holds the exact gross, refunded and net sums at one operation time with refunds within consumption |
| Conservation.SpendNeverRunsShort | services/api-gateway/credits_uol.go:285-326 | in no run does a consumption report missing batches |
| Conservation.FloorNeverApplies | services/api-gateway/credits_uol.go:86-101 | in no run does an expiry meet the zero floor |
| Replay.AwardHappensOnce | services/api-gateway/credits_uol.go:167-191 | after any later run, repeating a grant or refund with its reference returns the first batch and changes nothing |
| Replay.SpendHappensOnce | services/api-gateway/credits_uol.go:256-281 | after any later run, repeating a consumption with its reference returns the first entry and changes nothing |
| Replay.ReusedReferenceConflicts | services/api-gateway/credits_uol.go:167-174 | a used reference with another user or amount is refused and leaves the tables alone |
| CreditStore.Store.ExpireCredits | services/api-gateway/credits_uol.go:86-101 | the statement turns the tables into their expired form and returns entries worth exactly the due credit |
| CreditStore.Store.LockWallet | services/api-gateway/credits_uol.go:61-74 | opens and expires the wallet; the locked ledger agrees and holds nothing due |
| CreditStore.Store.DrainBatches | services/api-gateway/credits_uol.go:310-323 | the loop over the batches computes the drain whose optimality is proved |
| CreditStore.Store.ConsumeCreditTx | services/api-gateway/credits_uol.go:243-358 | the transaction ends in the tables, receipt or error of the consumption step |
| CreditStore.Store.GrantCreditTx | services/api-gateway/credits_uol.go:130-241 | the transaction ends in the tables, receipt or error of the grant step |
| CreditStore.Store.RepairBonusExpiryTx | services/api-gateway/credits_uol.go:741-755 | shortens over-long bonuses and expires what became due, or changes nothing |
| CreditStore.Store.Transact | services/api-gateway/credits_uol.go:61-358 | one request as a whole: all or nothing, agreement kept, never short of batches |
| ImageTasks.Retained | services/api-gateway/image_failure_billing.go:10-32 | a failed generation keeps the fee it earned when that is within its charge, the whole charge when the fee is larger, and nothing when moderation was unavailable |
| Submission.NextSafe | services/api-gateway/image_provider_state.go:46-182 | every transition keeps the relation between rows and worker phases that submission safety rests on, and changes only what its kind of event may |
| Submission.AtMostOneSubmission | services/api-gateway/image_provider_state.go:115-157 | in every run the provider gets at most two generation requests for a generation, the second an opaque retry, and at most one that was not explicitly rejected |
| RepairEdits.EditSentAtMostOnce | services/api-gateway/image_postprocessing.go:304-318 | in every run each repair step of a generation is sent to the provider at most once, whatever workers, crashes and lapsed claims do, and every charged step was sent |
| RepairEdits.OnlyFencerSends | services/api-gateway/image_postprocessing.go:311-318 | a repair step is sent only by the worker that won its receipt, and only while it was not sent yet |
| Submission.OnlyFenceOwnerSends | services/api-gateway/image_provider_state.go:115-130 | any request is sent by the worker that won the fence, in a phase after it |
| Submission.NoSendAfterOwnerGone | services/api-gateway/image_provider_state.go:59-62 | once that worker is gone no later run sends again, whatever stage it left |
| Submission.InterruptedNeverSends | services/api-gateway/image_provider_state.go:59-66 | a restart that finds a stored stage it cannot poll never changes what any generation was sent, in any later run, and only settles the failure and stops |
| Submission.RunProgress | services/api-gateway/image_worker_state.go:206-243 | over every run completed and failed are final for generation and task, the fence has one winner, and an accepted task keeps its provider id and start time |
| Submission.ClosedTaskAgrees | services/api-gateway/image_worker.go:21-33 | in every run a terminal task has its generation in the same terminal status, also when a crash fell between the two failure writes |
| Submission.OneHolder | services/api-gateway/image_concurrency.go:63-79 | in every run at most one worker holds the claim of a task |
| Polling.ClaimsSpaced | services/api-gateway/image_concurrency.go:63-70 | when every worker run follows a claim of its own, claims of a task are at least a second apart |
| Polling.DecisionsBounded | services/api-gateway/image_provider_state.go:59-66 | in such runs the decisions to poll are at most the polling limit plus the seconds the submission waited, and none comes after the limit |
| PollSpacing.PollsSpaced | services/api-gateway/image_provider_state.go:59-93 | when every worker run starts on time, a poll comes at least a second after the submission, after the poll before and after the last query under a live claim |
| PollSpacing.QueriesSpaced | services/api-gateway/image_provider_state.go:67-73 | in such runs a query sent under its worker's live claim comes at least a second after the submission and after the query before, and is the only one of its poll |
| PollSpacing.PollsBounded | services/api-gateway/image_provider_state.go:59-93 | in such runs a generation is polled fewer times than the polling limit has seconds, and queried no more often |
| PollSpacing.PunctualRunsOnTime | services/api-gateway/image_concurrency.go:63-70 | runs in which every worker starts on its own current claim start on time, and so are spaced |
| LateStarts.StartSpacesIff | services/api-gateway/image_worker_state.go:42-46 | a start is on time if and only if in every later run whose starts are on their own current claims no poll comes too soon |
| LateStarts.OnTimeExactly | services/api-gateway/image_worker_state.go:42-46 | a run from an initial system starts on time throughout if and only if at no moment of it such a continuation polls too soon |
| LateStarts.StalledStartsCoincide | services/api-gateway/image_worker_state.go:42-46 | a run of two claims and two late starts with two polls at the same time, although the first run had put the next poll off |
| LateStarts.StalledQueriesCoincide | services/api-gateway/image_provider_state.go:67-73 | a run with every start on its own current claim in which two queries are sent at the same time |
| AcceptedTask.LatePollsReachable | services/api-gateway/image_worker_state.go:42-46 | both runs continue a run from an initial system that charges, submits and stores an accepted task |
| Settlement.CreateKeepsSettled | services/api-gateway/image_billing.go:107-134 | creating a generation charges its wallet and key once, under a new operation |
| Settlement.RepairMovesBooks | services/api-gateway/image_postprocessing.go:407-462 | a repair charge moves ledger, row and key together by the same cents, a replay moves none of them |
| Settlement.SettleFailureMovesBooks | services/api-gateway/image_timeout.go:120-159 | a failure returns to wallet and key exactly what the row stops consuming and leaves the retained credits |
| Settlement.FailGenerationSettled | services/api-gateway/image_worker.go:79-134 | the worker's failure transaction keeps every generation and key settled |
| Settlement.ExpireJobSettled | services/api-gateway/image_timeout.go:89-143 | so does the timeout path, although it refunds under another reference |
| Settlement.NextSettled | services/api-gateway/image_postprocessing.go:407-462 | every transition keeps the ledger, all rows and all keys settled, transactions of other services included |
| Settlement.SettledExactlyOnce | services/api-gateway/image_worker.go:79-134 | in every run consumption minus refunds of a generation is its credits_consumed, at most one refund was granted, and none while it is pending or completed |
| Settlement.KeysFollowGenerations | services/api-gateway/image_timeout.go:155-157 | in every run a key's credits_used moved by exactly what the generations bound to it consume |
| Admission.UnfinishedBounded | services/api-gateway/image_concurrency.go:14-37 | in no run has a user more unfinished tasks than the limit |
| Admission.OneTaskPerIdentity | services/api-gateway/media.go:278-294 | in every run no two tasks share a task id or a generation id |
| Admission.CreationIsIdempotent | services/api-gateway/media.go:285-294 | an identical request returns its task with nothing changed, a differing one sharing an identifier conflicts, and only unused identifiers create |
| Admission.RetryReturnsTask | services/api-gateway/image_task_idempotency.go:217-240 | repeating a creation after any run returns the same task and changes nothing |
| Admission.FailureAlwaysSettles | services/api-gateway/image_timeout.go:120-129 | settling a pending generation is never refused by the ledger, also for a frozen wallet, if its refund reference is free and the expiry setting valid |
| ImageStore.Store.ChargeTx | services/api-gateway/image_billing.go:107-134 | wallet and key are charged together, or the first error is returned; a replay skips the key |
| ImageStore.Store.ReturnTx | services/api-gateway/image_timeout.go:145-159 | wallet and key are refunded together; a replay skips the key |
| ImageStore.Store.ExistingImageTask | services/api-gateway/image_task_idempotency.go:217-240 | the scan over matching rows finds the one identical task, nothing, or a conflict |
| ImageStore.Store.CreateImageTask | services/api-gateway/media.go:273-318 | creation takes the system to the creation step's state, or restores every row |
| ImageStore.Store.FenceSubmission | services/api-gateway/image_provider_state.go:119-129 | the fence update wins only for a pending, never submitted generation under a live claim |
| ImageStore.Store.PersistPending | services/api-gateway/image_provider_state.go:203-231 | an accepted task is stored and the claim given up only under the current live claim |
| ImageStore.Store.FenceRepairStep | services/api-gateway/image_postprocessing.go:304-318 | the receipt of a repair step is won once, for a pending generation under a live claim, and nothing is sent yet |
| ImageStore.Store.ChargeRepairStep | services/api-gateway/image_postprocessing.go:407-462 | a repair step is charged once under a live claim, or nothing changes |
| ImageStore.Store.CompleteOutput | services/api-gateway/image_worker_state.go:206-243 | generation and task complete together under the current live claim, or no row changes |
| ImageStore.Store.FailImageGeneration | services/api-gateway/image_worker.go:79-134 | the failure transaction is fenced by the token and settles a pending generation at most once |
| ImageStore.Store.ExpirePendingImage | services/api-gateway/image_timeout.go:89-143 | an overdue pending generation is failed and its task closed with the refund it reports; anything else is left alone |
| ImageStore.Store.ExpirePendingImages | services/api-gateway/image_timeout.go:77-87 | the sweep is a run of timeouts; nothing it visited is left overdue and all it reports has failed |
| ImageStore.SweepIsRun | services/api-gateway/image_timeout.go:77-87 | a sweep is a run of the protocol, so every run property covers it |
| ImageStore.RunHealthy | services/api-gateway/image_worker_state.go:206-243 | in every run the rows are safe, settled and their repair steps sent once, which every transaction above keeps |
| ProviderResults.FinishedIffItems | services/api-gateway/image_worker_state.go:129-152 | a reply holds output if and only if it delivers at least one item, and every delivered item is an object with output |
| ProviderResults.FinishedDelivers | services/api-gateway/image_provider_state.go:233-245 | a reply taken as finished never leaves completion without items |
| ProviderResults.IdentityKept | services/api-gateway/image_provider_state.go:162-171 | through any number of pending replies the id of the first accepted one never changes and is never blank |
| Leases.TakeMainKeepsCapacityIff | services/api-gateway/image_worker_state.go:87-127 | taking a main lease keeps every member within its concurrency if and only if the member on the row has room, which the check ensures unless the member changed |
| Leases.RenewKeepsCapacityIff | services/api-gateway/image_worker_state.go:60-68 | renewing keeps capacity if and only if the row's member has room, always so while the lease is live |
| Leases.TakeRepairKeepsCapacity | services/api-gateway/image_postprocessing.go:555-597 | taking a repair lease always keeps capacity |
| Leases.CapacityKept | services/api-gateway/image_worker_state.go:87-127 | in every run in which unpinned tasks keep their member and renewals are live, live main and repair leases never exceed a member's concurrency |
| Leases.PinnedCapacityKept | services/api-gateway/image_routing.go:151-158 | with a pinned member for every task live renewals alone keep capacity in every run |
| Leases.HolderReacquires | services/api-gateway/image_worker_state.go:104-126 | a task with a live main lease always gets it again |
| Leases.MemberChangeOverbooks | services/api-gateway/image_worker_state.go:119-119 | a run of an unpinned task, as only older snapshots leave, that ends with two live leases on a member of concurrency one |
| SchedulerReceipts.CountersExact | services/api-gateway/media_scheduler.go:69-115 | in every run a member's acquired, success and fail counts are exactly the receipts and results naming it |
| SchedulerReceipts.RecordsKept | services/api-gateway/media_scheduler.go:170-181 | first writer wins: a receipt and its result never change again |
| SchedulerReceipts.SecondResultIgnored | services/api-gateway/image_worker_state.go:187-232 | a second result of the same call, a failure after a success included, changes nothing |
| SchedulerReceipts.ResultsNeverExceedAcquisitions | services/api-gateway/media_scheduler.go:144-202 | in every run the successes and failures of any members together are at most the acquisitions |
| SchedulerReceipts.NextLoyal | services/api-gateway/media_scheduler.go:144-202 | a step keeps results on the acquiring members exactly when its result names the acquirer or is ignored |
| SchedulerReceipts.MemberResultsBounded | services/api-gateway/media_scheduler.go:144-202 | member by member the bound holds in every run whose repair results name the acquirer; results of the generation itself always do |
| SchedulerReceipts.ResultsBalance | services/api-gateway/media_scheduler.go:144-202 | in every run a member's results and spare receipts balance its acquisitions and foreign results, so it is overdrawn exactly when the foreign results outnumber the spare receipts |
| SchedulerReceipts.NextOverdrawsIff | services/api-gateway/media_scheduler.go:144-202 | a step pushes a member's results above its acquisitions exactly when its result counts on the member and nothing is to spare; the first time, it is for another member's receipt |
| SchedulerReceipts.HandedOverRepairMiscounts | services/api-gateway/media_scheduler.go:69-86 | a run in which a member gets a result without an acquisition |
| SchedulerReceipts.Scheduler.AcquireImageProviderLease | services/api-gateway/image_worker_state.go:87-127 | the transaction takes the pool to the acquisition step's state or leaves it alone |
| SchedulerReceipts.Scheduler.AcquireImageRepairLease | services/api-gateway/image_postprocessing.go:555-597 | likewise for a repair lease, giving up the main lease even when the member is full |
| SchedulerReceipts.Scheduler.RecordResult | services/api-gateway/media_scheduler.go:144-202 | the first result of a receipt is counted on the resolved member, anything else changes nothing |
| RowOrder.SortedUnique | services/api-gateway/history_migrated.go:299-305 | the sort key admits only one sorted arrangement of a row set |
| RowOrder.MergeTake | services/api-gateway/history_migrated.go:337-338 | the first n rows of a merge need only the first n rows of each branch |
| HistoryList.ListSqlRefines | services/api-gateway/history_migrated.go:316-339 | the branch-limited query equals slicing the fully sorted filtered union, in both directions and under a keyset bound |
| HistoryList.BoundCuts | services/api-gateway/history_migrated.go:318-327 | a keyset bound at a listed row cuts the list exactly behind, or in front of, that row |
| HistoryList.LaterRowsInvisible | services/api-gateway/history_migrated.go:252-255 | rows created after the reference time do not change a listing |
| History.ReverseRows | services/api-gateway/history_migrated.go:501-506 | the in-place loop reverses the fetched rows |
| History.KeepPage | services/api-gateway/history_migrated.go:497-506 | truncation keeps one page, reports the extra row and restores listing order |
| History.LoadHistory | services/api-gateway/history_migrated.go:412-548 | a request is answered as if all rows were sorted and sliced, errors included |
| HistoryWalk.NumberedPage | services/api-gateway/history_migrated.go:466-477 | a request by number gets that page of the list, clipped to the last |
| HistoryWalk.FollowNext | services/api-gateway/history_migrated.go:531-546 | following the next cursor of page k gives page k+1, cursors included, also after newer rows appeared |
| HistoryWalk.FollowPrevious | services/api-gateway/history_migrated.go:531-546 | following the previous cursor of page k gives exactly page k-1, cursors included |
| HistoryWalk.WalkReaches | services/api-gateway/history_migrated.go:466-546 | opening page 1 and following n-1 cursors ends on page n, whatever rows were added meanwhile |
| HistoryWalk.PagesTile | services/api-gateway/history_migrated.go:466-546 | the pages put together are the list in order, without gap or duplicate |
| HistoryWalk.PagesCover | services/api-gateway/history_migrated.go:497-546 | the page without a next cursor is exactly the one that completes the list |
| HistoryWalk.ReturnedCursorAcceptedExactly | services/api-gateway/history_migrated.go:188-224 | a returned cursor is accepted exactly by requests with the same secret, audience, actor, filters and page size for the neighbouring page, at or after its reference time |
| MediaTokens.RoundTrip | services/api-gateway/image_provider_response.go:268-324 | with fresh tokens, restoring a hidden tree gives back every tree |
| MediaTokens.HiddenUsesTokensOnce | services/api-gateway/image_provider_inputs.go:235-256 | a hidden tree uses each of its tokens exactly once |
| MediaTokens.RestoredOnce | services/api-gateway/image_provider_response.go:325-367 | for any accepted script output each protected text comes back at exactly one place and no other leaf changes |
| MediaTokens.TokensStayInBody | services/api-gateway/image_provider_inputs.go:566-573 | if body and combination are accepted, no token was copied to query or headers |
| MediaTokens.Vault.Protect | services/api-gateway/image_provider_response.go:268-300 | the recursive walk hides the tree's media in order and files each under its token |
| MediaTokens.ProtectTree | services/api-gateway/image_provider_inputs.go:235-256 | hides a whole tree; what it returns restores to the tree |
| MediaTokens.Validator.Visit | services/api-gateway/image_provider_inputs.go:258-291 | the counting walk accepts exactly the trees within the limits, without forbidden keys and forged tokens, and counts every token |
| MediaTokens.ValidateTree | services/api-gateway/image_provider_inputs.go:258-307 | decides acceptance, linear use of every token included |
| Multipart.EncodeMultipart | services/api-gateway/image_provider_inputs.go:309-370 | the encoder's loops produce the parts or the error of the encoding |
| Multipart.FormKeepsEveryFile | services/api-gateway/image_provider_inputs.go:309-391 | if an arbitrary script output is accepted and encodes, the form has exactly one file part per file of the original body with its name, type and bytes, and no plain field holds a token |
| Multipart.LeaksIffEmbedded | services/api-gateway/image_provider_inputs.go:347-363 | token text shows in the form if and only if the script put it into a longer text, a key at any depth, or the name of a written field |
| Multipart.TokenTextCanLeak | services/api-gateway/image_provider_inputs.go:347-363 | an accepted output whose plain field contains a token's text |
| Multipart.TokenKeyCanLeak | services/api-gateway/image_provider_inputs.go:353-360 | an accepted output that leaks through a nested key, although no text of it outside the tokens holds one |
| Digraph.ClosureIsLeast | services/api-gateway/media_group_tree.go:9-19 | a closure holds exactly the reachable nodes and lies inside every closed superset |
| Groups.Search.Visit | services/api-gateway/backend_pool_groups.go:143-158 | with colours shared across roots, the search reports a cycle only if there is one and otherwise finishes the node |
| Groups.Search.AnyCycle | services/api-gateway/backend_pool_groups.go:140-163 | the check reports a cycle if and only if the graph has one, in any order of roots |
| Groups.StaysHealthy | services/api-gateway/backend_pool_groups.go:89-224 | over every run of saves and deletes the hierarchy stays acyclic, closed under children and with at most one default group |
| Groups.AcceptedSaveAcyclic | services/api-gateway/backend_pool_groups.go:139-163 | a save changes nothing or leaves no cycle anywhere, whatever was stored before |
| Groups.GroupTable.SaveGroup | services/api-gateway/backend_pool_groups.go:89-183 | a save is accepted if and only if its fields are valid, its group and children exist and the edited graph has no cycle |
| Groups.GroupTable.DeleteGroup | services/api-gateway/backend_pool_groups.go:185-224 | a delete is accepted exactly for an existing, unused, non-default group outside the hierarchy |
| Groups.AuthorisedExactly | services/api-gateway/media_group_tree.go:9-19 | the authorised groups are exactly those reachable from an enabled root through enabled groups, the least such set, on cyclic hierarchies too |
| Groups.ReachableInOrder | services/api-gateway/media_group_tree.go:9-19 | the returned list holds exactly those groups, each once and in ascending order |
| Scopes.Close | services/api-gateway/admin_agent_scopes.go:83-92 | the worklist ends, for any registry, with the closure of the request under requirements |
| Scopes.NormalizeScopes | services/api-gateway/admin_agent_scopes.go:67-100 | returns the closure in registry order, or the error of the first failing check |
| Scopes.LeastClosedSuperset | services/api-gateway/admin_agent_scopes.go:67-100 | the result contains the request, is closed, lies inside every closed superset and has no duplicate |
| Scopes.NormalFormUnique | services/api-gateway/admin_agent_scopes.go:83-100 | the result does not depend on the order of the worklist |
| Scopes.IdempotentIffShort | services/api-gateway/admin_agent_scopes.go:71-73 | normalising a result again returns it if and only if it has at most 32 scopes |
| Scopes.IdempotentForSmallRegistry | services/api-gateway/admin_agent_scopes.go:67-100 | with at most 32 registered scopes normalising is idempotent for every request |
| Scopes.ShippedIdempotent | services/api-gateway/admin_agent_scopes.go:43-55 | so it is with the shipped registry |
| Scopes.WideOverflows | services/api-gateway/admin_agent_scopes.go:71-73 | a registry of 33 scopes and a request of one of them whose result is refused when normalised again |
| TaskInput.NormalizeImageTaskInput | services/api-gateway/image_task_idempotency.go:30-175 | the loops over the aliases compute the normal form or its error |
| TaskInput.MergeSucceedsIff | services/api-gateway/image_task_idempotency.go:45-127 | two spellings merge exactly when both read and agree, or the main one is blank text |
| TaskInput.BlankAlternativeConflicts | services/api-gateway/image_task_idempotency.go:45-127 | a blank alternative beside a text is refused, the other way round it is not |
| TaskInput.SpellingIrrelevant | services/api-gateway/image_task_idempotency.go:45-127 | either spelling alone means the same |
| TaskInput.NormalizeTwice | services/api-gateway/image_task_idempotency.go:30-175 | a normal form is its own normal form, whatever identifier is drawn the second time |
| TaskInput.RetryStableIff | services/api-gateway/image_task_idempotency.go:128-131 | two tries have the same normal form if and only if the caller named the generation |
| TaskInput.UnnamedRetryDiffers | services/api-gateway/image_task_idempotency.go:128-131 | two tries of an empty request under two drawn identifiers |

## Left out

- The table of projection entries beside the projection rows, and the JSON metadata of ledger rows: nothing above reads them.
- Floating-point money and the epsilon of rounding up prices: amounts become cents once, at validation; quotes are given in cents.
- SQL text, HTTP, sessions, JSON lexing, base64, HMAC, AES and object storage: rows, trees and symbolic signatures stand for them. A token over 4096 characters, which a cursor could only reach with an over-long actor or id, is not modelled.
- The order in which waiting tasks are claimed and the global execution limit: they decide who runs, not what a run may do.
- A generation row without a task row, which only older data has.
- The backoff of failed polls beyond its minimum of one second. A failed lookup of the provider's configuration before a poll stands for a poll answered with an error. The wait a worker asks for before a submission is written with the release of its claim, not just before it.
- Videos, payments, analytics, adapters, the relay and the legacy history and status handlers.
- Leases.CapacityKept: holds for fixed concurrency only, because lowering it below the live leases breaks the bound at once.
- Leases.PinnedCapacityKept: assumes live renewals, because a renewal is not refused after the lease lapsed and may revive it over a full member (`Leases.RenewKeepsCapacityIff`).
- Scopes.IdempotentIffShort: assumes registered ids without surrounding white space and registered requirements, as in the shipped registry.
- SchedulerReceipts.MemberResultsBounded: gives one direction; `SchedulerReceipts.ResultsBalance` is the exact one.
- PollSpacing.PollsSpaced: spaces the reservations a poll starts with; what holds for the queries is `PollSpacing.QueriesSpaced`. A full member means no poll.
- PollSpacing.PollsBounded: does not bound queries sent after their worker lost its claim other than by the polls they belong to.
- Polling.ClaimsSpaced: speaks of claims; what it takes for the polls to be spaced too is `PollSpacing.PollsSpaced`.
- Polling.DecisionsBounded: its bound grows with the wait before the submission, because starts on another run's claim are allowed; `PollSpacing.PollsBounded` is the bound without them.
- Admission.FailureAlwaysSettles: assumes the refund reference is unused; a foreign refund under that very reference would block it.
- Settlement.KeysFollowGenerations: edits of credits_used outside the lifecycle are not modelled, because they move it by design.
- Groups.StaysHealthy: assumes a created group's drawn identifier is new.
