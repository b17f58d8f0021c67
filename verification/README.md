# Earn proxy model

A model of a service that pays the owners of network proxies for verified online time, and
proofs of what it promises.

* **Earning engine.** Health and EarnApp results drive each proxy through pending, online,
  suspect, blocked and offline; accrual turns validated time into ledger intervals that are
  pending, available or expired; one proxy per exit address is canonical. `EarningModel`
  states the effect of each write transaction on the tables, `EarningInvariants`, `EgressStar`,
  `Projection`, `Balances` and `Accrual` prove what all of them keep, `EarningTheorems` what that
  means over whole runs, `StarRuns` how a star breaks, `AddressPayments` when an address is paid again, and `UptimeDisplay` that
  displayed uptime fits the age of the credentials. `AccrualLaws`, `HealthLaws` and `ProxyLaws` spell out what
  each operation writes, and exactly when. `EarningStore` updates the tables in place, loop
  by loop, and is proved to have those effects.
* **Payouts.** Reservations against a balance that grows concurrently, and leased verification
  of a transaction hash that may be resubmitted at any moment (`Receipts`, `PayoutModel`,
  `PayoutInvariants`, `PayoutRuns`, `PayoutLaws`, `PayoutStore`).
* **Swap queue.** A distributed at-most-once protocol: leases, reclaim, a mutation fence,
  read-only reconciliation, quota and requeue (`SwapModel`, `SwapInvariants`, `SwapRuns`,
  `SwapTheorems`, `SwapEvidence`, `SwapLaws`, `SwapMutationLaws`, `SwapStore`).
* **Inventory sync and qualification.** A leased multi-transaction sync and probes guarded by
  identity generations (`SyncModel`, `SyncInvariants`, `SyncTheorems`, `SyncContent`, `SyncCommit`,
  `SyncLaws`, `SyncStore`), on the same
  tables as the swap queue (`Inventory`) and as dashboard observation (`DashboardModel`, `DashboardLaws`);
  `Composition` joins all three over one database, and `WorldRun` plays one such run.
* **WebSocket framing.** Encoder and reader, byte for byte (`WebSocketFrames`, and `FrameLayout` for every bit on the wire).

Every transaction that starts with a write lock is one atomic step; workers that crash or stall are
steps that never come. Steps of different workers interleave freely. What the code reads before its
lock is a step apart: a verifier's read-back, a reconciliation's reading and findings, and the rows
a promotion, a replacement or an archival chooses from, which late writes may carry in any form.
Time is whole seconds on a clock that never goes back, and a claim token is never issued twice.
Where a table row is never deleted its id is its index. History that no operation reads (recorded
successes, the address a second was credited for, provider calls, inventory writes) only serves to
state properties. The stale limit and the other checker settings stay fixed during a run. Exit
addresses, credentials, receipts, provider answers and random bytes are inputs.

Five places where the code does less than its intent are stated exactly.

* A failed payout is retried without counting outstanding payouts again (`OutstandingGrowth`,
  `RetryRun`).
* Blanking a replacement leaves its identity generation alone, so a probe under way may land on the
  blank row (`OutcomesLandOnWhatWasMeasured`, `BlankedMidProbe`).
* A job requeued after a mutation keeps its first application stamp, so evidence older than its
  second mutation may finish it, close it or name its replacement (`EvidenceIsNewerExactly`,
  `ClosingIsNewerExactly`, `InferringIsNewerExactly`, `OlderEvidenceRun`).
* Re-homing an exit address by a leaving or changing row moves no cursor, so a second of the address
  may be paid again (`PaysAgainExactly`, `PaidAgainRun`).
* Promotion, replacement and archival choose from rows read before their write lock, so a row that
  changes in between may end up outside the star of its address (`PromotionKeepsStarExactly`,
  `LeaveKeepsStarExactly`, `LatePromotionBreaksStar`, `LateLeaveBreaksStar`).

`dafny verify dfyconfig.toml` checks the whole project.

## Model

| member | source | states |
|---|---|---|
| `EarningTheorems.AvailableIsBacked` | app/services/earnings.py:243-302 | On every run of health, EarnApp, block, failure, replace, promote, archive and accrual steps: each available entry lies in a cycle of its own proxy and credential of at least 168 hours, every instant of which is within the stale limit after a recorded success |
| `EarningTheorems.UnlockNeedsSevenDays` | app/services/earnings.py:283-296 | An accrual that makes any entry available ends at a validated moment at least 168 hours after the probation start, with no unobserved instant between |
| `EarningTheorems.NoSecondPaidTwice` | app/services/earnings.py:212-302 | On every run two ledger entries of one proxy never share a second, and no credited second lies at or after the accrual cursor |
| `EarningTheorems.CursorNeverRewinds` | app/services/checks.py:472-543 | No step takes any accrual cursor back, the live branch that writes back an earlier snapshot included |
| `EarningTheorems.NoEntryDropped` | app/services/earnings.py:190-209 | In every reachable state a due accrual appends entries that start at the cursor and end at the validated end: INSERT OR IGNORE ignores none of them |
| `EarningTheorems.PendingIsCurrentCycle` | app/services/earnings.py:283-289 | On every run a pending entry belongs to an online or suspect row and starts at or after its probation start, and the unlock statement leaves no pending entry of that proxy |
| `EarningTheorems.MonthlyCap` | app/services/earnings.py:190-193 | On every run the entries of one proxy inside any 720 hours add up to at most the top monthly rate |
| `EarningTheorems.RateCap` | app/services/earnings.py:32-39 | The same bound at any lower rate, for months in which nothing was priced above it |
| `EarningTheorems.BalanceNeverFalls` | app/services/earnings.py:162-167 | No step of the earning engine lowers the available balance of any user |
| `AccrualLaws.AccrualExactly` | app/services/earnings.py:258-302 | In every reachable state an accrual of an active, unpaused owner's due row whose validated end is seven days past the probation start makes every pending entry of the row available with its interval and amount, leaves none pending and appends available entries from the cursor to that end; before the seven days it appends one pending entry and changes no other |
| `AccrualLaws.AccrualPaysExactly` | app/services/earnings.py:258-302 | Then the owner's available balance grows by exactly the row's pending money plus the amounts added, and by nothing before the seven days |
| `AccrualLaws.CursorMovesExactly` | app/services/earnings.py:235-282 | An accrual moves the cursor of one row, exactly when the row is due, to the end its last success vouches for, and for an inactive or paused owner leaves the ledger alone |
| `AccrualLaws.FreedBalance` | app/services/earnings.py:283-289 | Freeing the pending entries of a row adds exactly their amounts to the balance of their owner |
| `HealthLaws.ResultExactly` | app/services/checks.py:419-678 | Only the holder of the claim, for the credentials it was given, writes: its own row column by column as live, blocked or failed results say, and other rows at most in what they duplicate |
| `HealthLaws.ResultSettles` | app/services/checks.py:472-543 | A result first pays what was confirmed and then forfeits the pending rest if it ends the cycle; one that ends none changes no money but what duplicates of a newly named address forfeit |
| `HealthLaws.ResultKeepsDisplay` | app/services/uptime.py:44-71 | On every accepted result the displayed online and offline seconds are the same right before and right after it |
| `HealthLaws.DisplayRuns` | app/services/uptime.py:44-71 | Between results displayed online time runs while the last success vouches for it and then stands still, offline time runs while the row is offline or blocked, and a pending row shows neither |
| `HealthLaws.ReconciledRows` | app/services/proxies.py:392-437 | Reconciling names the address and its source on the row, drops the country and renews the verification time if the address is another, and changes only links elsewhere |
| `ProxyLaws.VerdictExactly` | app/services/checks.py:312-384 | Only the holder of the EarnApp claim writes a verdict: standing, address, country and next check of its own row as the report says, links elsewhere |
| `ProxyLaws.VerdictSettles` | app/services/checks.py:352-384 | A verdict that changes the standing first pays what was earned under the old one, and forfeits the pending rest whenever the cycle restarts |
| `ProxyLaws.ClaimsExactly` | app/services/checks.py:154-256 | A batch takes exactly its due rows for ten minutes under a token nobody had before |
| `ProxyLaws.EarlierClaimsAreLost` | app/services/checks.py:154-256 | After a row was claimed anew neither the result nor the release of an earlier claim changes anything |
| `ProxyLaws.RehomingForfeitsExactly` | app/services/proxies.py:474-501 | Re-homing an address forfeits the pending money of exactly the members that end up as duplicates |
| `ProxyLaws.CanonicalExactly` | app/services/proxies.py:474-489 | The canonical row of an address is a member not offline for a day if there is one, and of those the one verified first if asked for and known of all, else the one created first |
| `ProxyLaws.LeavingExactly` | app/services/proxies.py:275-352 | Replacement and archival by the owner only: a row started over or archived, its pending money forfeited, other rows changed at most in their links |
| `ProxyLaws.PromotedExactly` | app/services/proxies.py:355-379 | A row offline for a day, or archived after being offline, gives way to the online duplicate created first, which all its other duplicates then follow |
| `EarningTheorems.RunStar` | app/services/proxies.py:452-501 | On every run at most one active trusted row per exit address is canonical, and each active duplicate points at a row of its own address that is canonical while active, provided each write that acts on rows read before its lock meets the exact condition of its kind |
| `EarningTheorems.StepStar` | app/services/proxies.py:275-437 | Every single step keeps that star from any state that has it, again with the condition on late writes |
| `EarningTheorems.StepStarExactly` | app/services/proxies.py:275-437 | A step from a state with the star breaks it if and only if it is a late write that does not meet its condition |
| `EarningTheorems.PromotedAway` | app/services/checks.py:681-690 | In a pass nobody interrupts: after the promotions of the dead rows handled so far, no online row is a duplicate of any of them, and no row changed status |
| `EarningTheorems.NoOnlineRowLeftBehind` | app/services/checks.py:681-696 | A pass nobody interrupts archives every row dead for a day and leaves no online row pointing at one of them |
| `EarningTheorems.OnlyPromotionMovesTheCursor` | app/services/proxies.py:490-501 | Canonicalizing leaves every accrual cursor as it is; a row that stops being a duplicate by a promotion has its cursor at that moment |
| `AddressPayments.PaysAgainExactly` | app/services/earnings.py:235-302 | In every reachable state an accrual credits a second that unforfeited money of another row already covers for the same exit address if and only if it pays at all and some such entry of another row ends after this row's cursor and starts before its validated end |
| `AddressPayments.PaidAgainRun` | app/services/proxies.py:333-352 | A run on which this happens: the canonical row is credited for eight days and archived by its owner, its duplicate of one day becomes canonical with its old cursor, and the next accrual pays the eighth day of the address again |
| `AddressPayments.PromotionSkipsPaidTime` | app/services/proxies.py:369-377 | A row that becomes canonical by promotion cannot pay a second again: everything credited so far ends by its cursor |
| `UptimeDisplay.UptimeConserved` | app/services/uptime.py:44-71 | On every run displayed online plus offline time is at most the time since the credential started, for every stale limit, with earning on or off, and whether the online part is the row's own counter or the ledger seconds the dashboard passes in |
| `UptimeDisplay.RunRoom` | app/services/checks.py:472-678 | On every run the ledger seconds of the current credential and its accumulated offline time fit between the credential start and the moment the row is accounted for: offline since, archived, or its cursor |
| `UptimeDisplay.AccrueRoom` | app/services/earnings.py:258-302 | An accrual never credits more seconds than its cursor moves, whatever was unlocked or ignored |
| `Projection.AccrualKeepsDisplay` | app/services/earnings.py:57-151 | For an active, unpaused owner the displayed seconds at a moment are the same before and after accruing that row at that moment |
| `Projection.AccrueAllKeepsDisplay` | app/services/earnings.py:212-302 | The same for the accrual of any number of rows at once, displayed for any one of them |
| `Projection.DisplayIsMeasure` | app/services/earnings.py:103-150 | The displayed seconds are the number of distinct seconds in the ledger intervals of the current credential together with a disjoint tail |
| `Accrual.PaidBounds` | app/services/earnings.py:190-193 | However accrual cuts T seconds into n entries, they pay more than rate*T/2592000 - n and at most floor(rate*T/2592000) |
| `Accrual.MonthBound` | app/services/earnings.py:190-193 | Non-overlapping intervals within 720 hours are paid at most the monthly rate |
| `Accrual.MicroAtMost` | app/services/earnings.py:258-298 | Ledger entries priced at most at a rate add up to at most what that rate pays for their intervals |
| `Balances.AvailableNeverFalls` | app/services/earnings.py:338-344 | A ledger whose entries only gain company and only leave the pending bucket never shows a lower available balance |
| `Balances.EffectGrows` | app/services/earnings.py:162-209 | Every step of the engine changes the ledger only that way |
| `LedgerInvariants.UnlockTakesAll` | app/services/earnings.py:286-289 | The `started_at>=` filter selects all pending entries of the proxy |
| `LedgerInvariants.AddEntryAppends` | app/services/earnings.py:190-209 | An entry that starts at the cursor has no row with the same key |
| `LedgerInvariants.CreditKeeps` | app/services/earnings.py:258-302 | Crediting a row and moving its cursor keeps entries disjoint, before the cursor, priced, and pending only in the current cycle |
| `LedgerInvariants.CycleUnlocked` | app/services/earnings.py:258-289 | A validated end past the unlock moment closes a continuously observed cycle |
| `LedgerInvariants.RowsMove` | app/services/checks.py:472-543 | A row may be rewritten, as the live branch does from an earlier snapshot, as long as its cursor does not go back and its pending money stays in its cycle |
| `RowInvariants.NoUnobservedRecovery` | app/services/checks.py:464-466 | The `unobserved_recovery` condition holds in no reachable row |
| `RowInvariants.LiveRowOk` | app/services/checks.py:443-543 | A live result keeps the clocks, the cycle and the uptime of the row sound in every combination of egress change, mismatch, stale recovery and return from offline |
| `RowInvariants.BlockedRowOk` | app/services/checks.py:598-625 | A provider block keeps them sound |
| `RowInvariants.FailureRowOk` | app/services/checks.py:628-678 | First, second and third failures keep them sound, from every status |
| `RowInvariants.EarnappRowOk` | app/services/checks.py:361-384 | An EarnApp verdict keeps them sound after reconciliation rewrote the row |
| `RowInvariants.ReplacedRowOk` | app/services/proxies.py:295-311 | New credentials start a sound row of a new generation |
| `RowInvariants.ResetRowOk` | app/services/proxies.py:370-377 | Restarting the cycle of any row, whatever became of it since it was chosen for promotion, keeps it backed by its last success |
| `EarningInvariants.HealthInv` | app/services/checks.py:419-678 | Every health result keeps the row and ledger invariants |
| `EarningInvariants.EarnappInv` | app/services/checks.py:312-384 | Every EarnApp result keeps them |
| `EarningInvariants.PromoteInv` | app/services/proxies.py:355-379 | A promotion that chooses and writes at once keeps them |
| `EarningInvariants.PromoteToInv` | app/services/proxies.py:369-378 | So do the writes of a promotion of any row, whatever happened since the rows were read |
| `EarningInvariants.LeaveInv` | app/services/proxies.py:275-352 | Replacing and archiving at once keep them |
| `EarningInvariants.LateLeaveInv` | app/services/proxies.py:292-352 | So do the writes of a replacement or an archival, whatever canonical row and losers were chosen from an earlier reading |
| `EarningInvariants.RunInv` | app/services/earnings.py:212-302 | They hold on every run from the empty database |
| `EgressStar.CanonicalIsFirst` | app/services/proxies.py:474-489 | The chosen row is the first in key order among the members not offline for a day, or among all members if there is no other |
| `EgressStar.CanonicalizeStar` | app/services/proxies.py:452-501 | Canonicalizing one address leaves it with one canonical row that all others point at, and disturbs no other address |
| `EgressStar.ReconcileStar` | app/services/proxies.py:392-437 | Right after reconciliation the new and the previous address each have exactly one canonical row, every other active trusted member pointing at it |
| `EgressStar.LeaveStar` | app/services/proxies.py:292-330 | A row that is replaced or archived leaves its group a star |
| `EgressStar.PromoteStar` | app/services/proxies.py:363-376 | Promoting an online duplicate of the row turns the star around its new center |
| `EgressStar.PromotionKeepsStarExactly` | app/services/proxies.py:363-376 | A promotion acting on rows read earlier keeps the star if and only if every row it redirects is on the promoted row's address and no other active row on that address is left out |
| `EgressStar.PromotionsThatFit` | app/services/proxies.py:357-376 | That condition holds for a duplicate read under the lock, and fails whenever the canonical row is active and has moved to another address since |
| `EgressStar.LeaveKeepsStarExactly` | app/services/proxies.py:292-352 | A replacement or archival acting on rows read earlier keeps the star if and only if the group it re-homes is on the new canonical row's address, no other active row on it is left out, and a replaced row keeps no follower |
| `EgressStar.TimelyLeaveFits` | app/services/proxies.py:275-352 | That condition holds for a choice made under the lock |
| `StarRuns.LateLeaveBreaksStar` | app/services/proxies.py:276-352 | For replacement and for archival, a run from the empty database: the owner's request chooses the next canonical row, a live result moves that row to another address, and the writes leave a third row pointing at it |
| `StarRuns.LatePromotionBreaksStar` | app/services/proxies.py:355-378 | A run from the empty database: a promotion is due and chosen, the offline row comes back alive on another address, and the writes leave it pointing at a row of the old one |
| `EgressStar.BuryStar` | app/services/checks.py:691-694 | Archiving dead rows keeps the star |
| `EgressStar.HealthStar` | app/services/checks.py:443-553 | Health results keep the star |
| `EgressStar.EarnappStar` | app/services/checks.py:368-384 | EarnApp results keep the star |
| `EarningModel.Best` | app/services/proxies.py:489-489 | The minimum by key: none only if there is no candidate, otherwise a candidate that precedes all others |
| `EarningModel.FirstOnlineDuplicate` | app/services/proxies.py:363-368 | None exactly if there is no online duplicate, else one that precedes all others in creation order |
| `Intervals.Merge` | app/services/earnings.py:103-113 | Merging sorted intervals in place covers the same seconds with disjoint intervals whose lengths add up to that measure, ending at the latest end |
| `Intervals.SortCovers` | app/services/earnings.py:106-106 | Sorting keeps the covered seconds |
| `Intervals.OrderedTotal` | app/services/earnings.py:111-111 | Disjoint intervals cover as many seconds as their lengths add up to |
| `EarningStore.MergedTotal` | app/services/earnings.py:103-113 | Sort, merge and sum give the number of covered seconds and the latest end |
| `EarningStore.Store.AddLedgerEntry` | app/services/earnings.py:179-209 | Appends the priced interval, or nothing when it is empty or its key exists |
| `EarningStore.Store.AccrueOne` | app/services/earnings.py:235-302 | One turn of the accrual loop has exactly the effect on cursor and ledger that `AccrualExactly` spells out: the unlock runs once the seven days are over |
| `EarningStore.Store.AccrueEligibleTime` | app/services/earnings.py:305-319 | The loop over all rows is the accrual of each row in order |
| `EarningStore.Store.EarningOnlineSeconds` | app/services/earnings.py:57-151 | Collect, sort, merge, sum and tail give the projected seconds |
| `EarningStore.Store.BalanceOf` | app/services/earnings.py:338-344 | The sum of one user and bucket |
| `EarningStore.Store.ResetProbation` | app/services/earnings.py:170-176 | Expires the pending cycle and restarts both clocks |
| `EarningStore.Store.CanonicalizeExitGroup` | app/services/proxies.py:452-501 | The loop over the group has the modelled effect on links and pending money |
| `EarningStore.Store.ReconcileExitIp` | app/services/proxies.py:392-437 | Both groups are canonicalized as modelled |
| `EarningStore.Store.ApplyLiveResult` | app/services/checks.py:443-553 | The live branch, column by column, from the row first read |
| `EarningStore.Store.ApplyHealthResult` | app/services/checks.py:419-678 | All health branches, and nothing for a stale claim or generation |
| `EarningStore.Store.ApplyEarnappResult` | app/services/checks.py:312-384 | The EarnApp transaction as modelled, nothing for a stale claim or generation |
| `EarningStore.Store.AddProxy` | app/services/proxies.py:238-264 | A fresh row for a known user |
| `EarningStore.Store.ReplaceProxy` | app/services/proxies.py:275-330 | Leaves the group, expires the cycle and resets the row of its owner only |
| `EarningStore.Store.ArchiveProxy` | app/services/proxies.py:333-352 | Leaves the group, expires the cycle and archives the row of its owner only |
| `EarningStore.Store.PromoteDuplicateIfDue` | app/services/proxies.py:355-379 | Promotes the first online duplicate of a row that is archived or offline for a day |
| `EarningStore.Store.ArchiveDueDeadProxies` | app/services/checks.py:681-696 | The promotion loop followed by the archiving update |
| `EarningStore.Store.ClaimDueProxies` | app/services/checks.py:154-216 | Claims exactly the due rows of a batch under one fresh token |
| `EarningStore.Store.ClaimDueEarnapp` | app/services/checks.py:223-256 | Claims exactly the due online rows of a batch under one fresh token |
| `PayoutInvariants.CommittedIsEarned` | app/services/payouts.py:66-121 | On every interleaving of earning, requests, approvals, submissions, retries and verifications: requested, approved, verifying and confirmed amounts of a user add up to at most the available balance |
| `PayoutInvariants.ConfirmedWasPaid` | app/services/payout_verification.py:174-227 | On every run a confirmed payout was proven for the hash it holds: a worker saw a settled transfer of its net amount to its wallet from the configured token, and no other payout holds that hash |
| `PayoutInvariants.AppliedToItsOwnHash` | app/services/payout_verification.py:306-330 | A verification result changes a row only if it was computed for the hash, wallet and amount the row holds |
| `PayoutInvariants.ResubmittingFences` | app/services/payout_verification.py:267-275 | Right after a resubmission no session holds the row |
| `PayoutInvariants.ResubmittingFencesForever` | app/services/payout_verification.py:267-275 | On every run after an accepted resubmission, a session that had read the payout before can neither apply its result nor release the lease |
| `PayoutInvariants.LateReadersHoldTheNewHash` | app/payout_verifier_service.py:82-87 | A session that had not read yet reads the token, hash, wallet and amount the row holds by then |
| `PayoutInvariants.ConfirmedIsFinal` | app/services/payout_verification.py:319-327 | No step changes any column of a confirmed payout |
| `PayoutInvariants.ConfirmedForever` | app/services/payout_verification.py:319-327 | The same over every later run |
| `PayoutInvariants.UninterruptedPass` | app/payout_verifier_service.py:100-119 | A pass nobody interrupts judges the first due payout on its own hash and nothing else |
| `PayoutInvariants.OutstandingGrowth` | app/services/payouts.py:78-88 | A request never exceeds the limit, and the outstanding count grows by a step exactly if a request is accepted or a failed payout is retried |
| `PayoutInvariants.RetryPassesTheLimit` | app/services/payout_verification.py:252-275 | With one outstanding payout, retrying a failed one makes two without any count |
| `PayoutRuns.RetryRun` | app/services/payouts.py:78-88 | A run from the empty office under a limit of one: a payout is submitted and found reverted, a second is requested, a third is refused for the limit, and retrying the first then makes two outstanding |
| `PayoutInvariants.RequestInv` | app/services/payouts.py:55-121 | An accepted request keeps every user solvent |
| `PayoutInvariants.SubmitInv` | app/services/payout_verification.py:239-289 | A submission, including the retry of a failed payout, keeps every user solvent and every hash unique |
| `PayoutInvariants.ApplyInv` | app/services/payout_verification.py:292-331 | Applying or releasing keeps the payout invariants |
| `PayoutInvariants.EarnInv` | app/services/earnings.py:338-344 | Any earning step keeps every user solvent |
| `PayoutInvariants.RunInv` | app/services/payout_verification.py:239-331 | The payout invariants hold on every run |
| `PayoutLaws.RequestedExactly` | app/services/payouts.py:55-121 | A request adds a row exactly when the amount is between 10 and 1,000,000,000 dollars, the user has a wallet whose lock has passed, fewer of the user's rows than the limit are requested, approved or verifying, and the amount fits the available balance less what is reserved; the row has that wallet's address and the quote |
| `PayoutLaws.RefusedExactly` | app/services/payouts.py:66-93 | And which of these a refusal names |
| `PayoutLaws.PaidToUnlockedWallets` | app/services/payouts.py:73-77 | On every run each payout row was added at a moment when the lock of its user's wallet had passed, for an amount then within bounds, and carries the address of that wallet |
| `PayoutLaws.OwedIsEarned` | app/services/payouts.py:89-93 | On every run the unfailed amounts of a user, summed row by row, are at most the available entries, summed entry by entry |
| `PayoutLaws.QuotesExactly` | app/services/payouts.py:27-40 | The fee rate on each side of the threshold, the rounded fee and the net |
| `PayoutLaws.SubmittedExactly` | app/services/payout_verification.py:239-289 | A hash is taken exactly when it is well formed, no other row holds it in any case of letters, and the row is approved, failed or verifying; then verification starts over |
| `PayoutLaws.ClaimedExactly` | app/payout_verifier_service.py:50-87 | A claim leases the payout that has waited longest among those verifying, due and unleased, for five minutes |
| `PayoutLaws.VerifiedExactly` | app/services/payout_verification.py:292-331 | A verdict is written only under the token the session read, with the retry after five minutes or the final time |
| `PayoutLaws.JudgedExactly` | app/services/payout_verification.py:150-236 | Confirmed, failed or pending for each reply of the chain, in terms of its fields |
| `PayoutLaws.RecipientExactly` | app/services/payout_verification.py:52-63 | A topic names a wallet exactly when its last forty hex digits are the wallet's in any case of letters |
| `PayoutModel.QuotesAreFair` | app/services/payouts.py:27-40 | Fee and net add up to the amount, the fee is positive and at most a tenth, and a larger payout never nets less, also across the fee threshold |
| `PayoutModel.FirstDue` | app/payout_verifier_service.py:53-64 | The due payout first by due time and id, none only if none is due |
| `PayoutStore.Desk.RequestPayout` | app/services/payouts.py:55-121 | Each refusal in the order the code checks, the wallet lock included, else one reserved row with its quote, as `RequestedExactly` spells out |
| `PayoutStore.Desk.ApprovePayout` | app/services/payouts.py:124-133 | Only a requested payout moves |
| `PayoutStore.Desk.SubmitTransaction` | app/services/payout_verification.py:239-289 | Each refusal in the order the code checks, else the row as resubmitted, its claim dropped |
| `PayoutStore.Desk.ClaimDue` | app/payout_verifier_service.py:50-87 | Leases the first due payout under a fresh token |
| `PayoutStore.Desk.ApplyVerification` | app/services/payout_verification.py:292-331 | Writes the verdict exactly if the session still holds the row |
| `PayoutStore.Desk.ReleaseClaim` | app/payout_verifier_service.py:90-98 | Drops the lease only of the session that holds it |
| `PayoutStore.Desk.RunBatch` | app/payout_verifier_service.py:100-126 | The pass is claim, read back, verify and apply in that order |
| `PayoutStore.Desk.SumReserved` | app/services/payouts.py:89-93 | The reserved sum of a user |
| `Receipts.ConfirmedExactly` | app/services/payout_verification.py:165-227 | Confirmed if and only if the chain shows a settled matching transfer; failed only by a reverted or a settled receipt |
| `Receipts.VerifyPayout` | app/services/payout_verification.py:150-236 | The whole verdict, reason, depth and block for every reply of the endpoint |
| `Receipts.ScanLogs` | app/services/payout_verification.py:196-227 | The loop confirms exactly when some log matches contract, wallet and amount, and otherwise names the first of contract, recipient and amount that no log meets |
| `Receipts.UnitsAreExact` | app/services/payout_verification.py:195-195 | With six decimals or more nothing is rounded and equal units mean equal net amounts |
| `Receipts.NormalForms` | app/services/payout_verification.py:32-63 | Normalising is idempotent and every topic yields a well-formed address |
| `SwapTheorems.AtMostOneCall` | app/proxiware_swap_service.py:389-448 | On every run a job calls the provider at most once more than administrators requeued it, through lease expiry, reclaim, crash, timeout and reconciliation |
| `SwapTheorems.CallsAreFenced` | app/proxiware_swap_service.py:405-415 | A provider call happens only while the job is mutating under the token of the calling worker, and never outnumbers the entries into the mutation |
| `SwapTheorems.FenceIsFound` | app/proxiware_swap_service.py:405-410 | On every run a worker that entered the mutation and has not finished finds its fence |
| `SwapTheorems.ArmedWorkersDiffer` | app/services/proxiware_swap.py:1064-1086 | Two such workers work on different subscriptions |
| `SwapTheorems.QuotaNeverOverspent` | app/services/proxiware_swap.py:895-913 | On every run used swaps plus jobs in mutation stay within a limited quota, although requeueing checks no quota |
| `SwapTheorems.OneBusyJob` | app/services/proxiware_swap.py:1064-1086 | On every run one subscription has at most one job running or in mutation |
| `SwapTheorems.SiblingCheckNeverFires` | app/services/proxiware_swap.py:1145-1156 | The `subscription_mutation_in_progress` refusal is unreachable, and entering the mutation never meets the unique index |
| `SwapTheorems.MutationIsNeverReclaimed` | app/services/proxiware_swap.py:1056-1061 | A job in mutation leaves it only for success or, on evidence that nothing changed, read now or found earlier, for blocked; nothing puts it back into the queue |
| `SwapTheorems.ReadingsWereRead` | app/services/proxiware_swap.py:1721-1728 | On every run the columns a reconciliation pass holds are those the job had at some earlier moment, applied or uncertain |
| `SwapTheorems.FindingsWereSeen` | app/services/proxiware_swap.py:1616-1713 | On every run whatever a reconciliation writes was borne out, for the columns its pass had read at one earlier moment, by the tables at a later one before the write |
| `SwapTheorems.LineageIsConserved` | app/services/proxiware_swap.py:1564-1576 | On every run a job is a success exactly if it has a mapping, and then exactly one, between two different ids, and its old row is gone |
| `SwapTheorems.UsedIsSuccesses` | app/services/proxiware_swap.py:1577-1581 | `swap_used` is the number of successful jobs of the subscription |
| `SwapTheorems.ReplacedOnce` | app/services/proxiware_swap.py:1571-1576 | No assignment row is the old side of two successes |
| `SwapTheorems.SuccessIsFinal` | app/services/proxiware_swap.py:1885-1903 | No step changes a successful job |
| `SwapEvidence.EvidenceIsNewerExactly` | app/services/proxiware_swap.py:1490-1525 | Whatever the tables show, a job is finished only on sync and dashboard evidence newer than its latest mutation if and only if its first application is not stamped before that mutation or its columns admit no completion at all |
| `SwapEvidence.AnsweredEvidenceIsNewer` | app/services/proxiware_swap.py:1363-1393 | On every run this holds for each job that entered the mutation at most once, however often it was requeued before, and for each job whose latest mutation was answered |
| `SwapEvidence.OlderEvidenceRun` | app/services/proxiware_swap.py:1186-1203 | A run that ends with a job finished on a listing from second 5 although its second mutation started at second 10 |
| `SwapEvidence.ClosingIsNewerExactly` | app/services/proxiware_swap.py:1616-1637 | Whatever the assignments show, a job is closed as unchanged only on a snapshot newer than its latest mutation if and only if its first application is not stamped before that mutation, or its columns do not let it be closed, or the mutation is longer ago than evidence stays fresh |
| `SwapEvidence.InferringIsNewerExactly` | app/services/proxiware_swap.py:1663-1706 | Whatever the tables show, a replacement is inferred only on evidence newer than the latest mutation if and only if the first application is not stamped before that mutation or the columns do not let one be inferred |
| `SwapEvidence.AnsweredReconciliationIsNewer` | app/services/proxiware_swap.py:1616-1713 | On every run both hold for each job that entered the mutation at most once and for each whose latest mutation was answered |
| `SwapTheorems.AllowedExactly` | app/services/proxiware_swap.py:783-927 | The decision allows a swap if and only if the subscription and row stand as required and the subscription grants it: its reported eligible count is below the threshold, or without one the number of its rows in service that the dashboard showed as eligible within the age window is positive and below it; and used swaps plus the other unfinished jobs, counted as a set, are below a limited quota |
| `SwapTheorems.InferenceIsUnambiguous` | app/services/proxiware_swap.py:1663-1713 | Inference records a replacement only if the fresh evidence leaves exactly one, which the snapshot covers |
| `SwapLaws.QueuedExactly` | app/services/proxiware_swap.py:940-1039 | A row is queued exactly when automatic swapping is on and unpaused, the swap is allowed and no unfinished job has it |
| `SwapLaws.StaleExactly` | app/services/proxiware_swap.py:830-865 | A swap is refused as stale exactly when everything before holds and the dashboard evidence is missing, older than the window or contradictory |
| `SwapLaws.ClaimedExactly` | app/services/proxiware_swap.py:1042-1095 | A claim takes the oldest job of a subscription not at work exactly when there is one, for at least half a minute, after abandoned claims went back to the queue |
| `SwapMutationLaws.RevalidatedExactly` | app/services/proxiware_swap.py:1098-1244 | A claimed job still allowed enters its mutation with the old row's endpoint and dashboard id frozen; stale evidence waits half a minute unless a person asked; any other refusal blocks |
| `SwapMutationLaws.AppliedExactly` | app/services/proxiware_swap.py:1316-1393 | An answer is recorded exactly when it fits the fence; the old row goes off the market and a known replacement is wiped |
| `SwapMutationLaws.SucceedsExactly` | app/services/proxiware_swap.py:1436-1560 | A swap succeeds with a row exactly when call, job, rows and evidence fit, in terms of their columns: the row named, or the only one at the address, listed and shown since the mutation |
| `SwapMutationLaws.SuccessWrites` | app/services/proxiware_swap.py:1547-1581 | And then job, mapping, old row, new row and used count are all written, otherwise nothing |
| `SwapMutationLaws.UnchangedExactly` | app/services/proxiware_swap.py:1584-1637 | Nothing was changed exactly if every listed row of the subscription was shown since the mutation and the old row still has its endpoint and dashboard id |
| `SwapMutationLaws.InferredExactly` | app/services/proxiware_swap.py:1663-1706 | A replacement is inferred exactly if the old row is off the list, the subscription and its whole list were shown since, and just one row has the old dashboard id |
| `SwapMutationLaws.StoppedExactly` | app/services/proxiware_swap.py:1784-1882 | Which failures requeue, block or cancel a job, and which stop automatic swapping |
| `SwapMutationLaws.RequeuedExactly` | app/services/proxiware_swap.py:1885-1944 | Which requests of an administrator requeue a job, never beside another unfinished job of its row |
| `SwapRuns.EnterInv` | app/services/proxiware_swap.py:1166-1213 | Entering the mutation keeps the quota and the exclusion |
| `SwapRuns.FinishInv` | app/services/proxiware_swap.py:1436-1581 | Success keeps lineage, quota, counts and unique ids |
| `SwapRuns.ClaimInv` | app/services/proxiware_swap.py:1042-1095 | Reclaiming and claiming keep all swap invariants |
| `SwapRuns.RequeueInv` | app/services/proxiware_swap.py:1885-1903 | Requeueing keeps them |
| `SwapRuns.FreezeReadInv` | app/services/proxiware_swap.py:1716-1775 | A pass acting on what it read earlier keeps them |
| `SwapRuns.CloseInv` | app/services/proxiware_swap.py:1638-1660 | Closing a job and noting a replacement keep them on whatever evidence |
| `SwapRuns.RunInv` | app/services/proxiware_swap.py:1042-1944 | They hold on every run |
| `SwapModel.FirstClaimable` | app/services/proxiware_swap.py:1064-1074 | The oldest claimable job by creation and id, none only if none is claimable |
| `SwapModel.AddressCandidates` | app/services/proxiware_swap.py:1273-1306 | Exactly the fresh rows of the subscription at the address |
| `SwapModel.InferCandidates` | app/services/proxiware_swap.py:1688-1706 | Exactly the fresh listed rows with the old dashboard identity |
| `Inventory.LookUp` | app/services/proxiware_swap.py:1247-1251 | The row with an external id, none only if no row has it |
| `SwapStore.Queue.DecideSwap` | app/services/proxiware_swap.py:783-927 | The early returns give the reason of the first failing guard; `AllowedExactly` spells out when there is none |
| `SwapStore.Queue.QueueEligible` | app/services/proxiware_swap.py:940-1039 | Queues each allowed candidate that has no live job, each seeing the ones before |
| `SwapStore.Queue.ClaimNext` | app/services/proxiware_swap.py:1042-1095 | Reclaims expired leases, then claims the oldest free job under a fresh token |
| `SwapStore.Queue.RevalidateJob` | app/services/proxiware_swap.py:1098-1244 | Allows, enters, defers or blocks as modelled; nothing for a stale claim |
| `SwapStore.Queue.MarkProviderApplied` | app/services/proxiware_swap.py:1316-1393 | Records the answer, clears the old row and blanks the replacement, or refuses |
| `SwapStore.Queue.MarkReconciliationRequired` | app/services/proxiware_swap.py:1402-1433 | Freezes the job of this token and stops automatic swapping |
| `SwapStore.Queue.MarkSwapSuccess` | app/services/proxiware_swap.py:1436-1581 | Refuses or waits for each missing piece of evidence in order, else writes the whole success |
| `SwapStore.Queue.CloseIfUnchanged` | app/services/proxiware_swap.py:1616-1660 | Closes exactly an uncertain job whose old row is shown unchanged by fresh evidence covering the subscription |
| `SwapStore.Queue.InferReplacement` | app/services/proxiware_swap.py:1663-1713 | Records the one inferable replacement |
| `SwapStore.Queue.CoversSubscription` | app/services/proxiware_swap.py:1584-1613 | True exactly if some row is listed and every listed row is fresh |
| `SwapStore.Queue.ReconcileJob` | app/services/proxiware_swap.py:1716-1781 | A pass over one job is a run of the swap steps |
| `SwapStore.Queue.MarkSwapBlocked` | app/services/proxiware_swap.py:1784-1816 | Blocks only a job before its mutation, under its token if one is given |
| `SwapStore.Queue.MarkSwapFailed` | app/services/proxiware_swap.py:1819-1869 | Back to the queue below the retry limit, else blocked |
| `SwapStore.Queue.CancelSwap` | app/services/proxiware_swap.py:1872-1882 | Only before the mutation |
| `SwapStore.Queue.RetrySwap` | app/services/proxiware_swap.py:1885-1903 | Only a terminal job whose assignment has no live job |
| `SwapStore.Queue.RequestManualSwap` | app/services/proxiware_swap.py:1906-1944 | Only if all guards still pass |
| `SwapStore.Queue.RunOnce` | app/proxiware_swap_service.py:346-449 | A worker pass is a run of the swap steps with at most one provider call, and exactly one when it records an answer |
| `SyncTheorems.OneSyncRuns` | app/services/proxiware.py:314-363 | On every run at most one sync run is running |
| `SyncTheorems.LostForGood` | app/services/proxiware.py:601-626 | A pass that no longer holds its run never holds it again, so a lost lease is never resurrected |
| `SyncTheorems.LostForever` | app/services/proxiware.py:601-650 | The same over every later run |
| `SyncTheorems.FinalCommit` | app/services/proxiware.py:999-1047 | In any state that meets the sync invariant the final commit of a successful pass leaves the non-missing subscriptions exactly the valid listed ones, the non-missing assignments the valid listed ones less those swaps deleted meanwhile, and nobody else wrote the inventory since the claim |
| `SyncTheorems.SuccessLeavesTheListing` | app/services/proxiware.py:999-1047 | So it does on every run |
| `SyncTheorems.FinalRows` | app/services/proxiware.py:1011-1019 | A surviving row is missing exactly if it was not listed, unless a swap deleted that id during the pass |
| `SyncTheorems.GenerationsGuardIdentities` | app/services/proxiware.py:868-879 | A generation never falls, and an identity changes only with a higher generation or by being blanked |
| `SyncTheorems.OutcomesLandOnWhatWasMeasured` | app/services/proxiware_qualification.py:349-378 | On every run a guarded write lands on the measured identity if and only if the row was not blanked under the probe |
| `SyncTheorems.BlankedMidProbe` | app/services/proxiware_swap.py:1365-1377 | A replacement blanked between identity check and write takes the outcome although its identity is gone: the generation is not raised |
| `SyncInvariants.UpsertAllAdvances` | app/services/proxiware.py:791-994 | Upserting a list raises the generation with every changed identity, loses no row, keeps external ids unique and leaves every valid listed id present |
| `SyncContent.StoredExactly` | app/services/proxiware.py:791-994 | One listed proxy is stored column by column: a new row as listed with pending defaults; a known one with the endpoint listed, credentials, status and eligibility where listed, the generation raised by one and all that was measured cleared exactly when the identity is another; no other row changes |
| `SyncContent.KnownStoredExactly` | app/services/proxiware.py:791-994 | A list takes a known row through one such refresh for each record of its id, in order, and through nothing else |
| `SyncContent.UnknownStoredExactly` | app/services/proxiware.py:791-994 | And an id without a row through one insert and such refreshes |
| `SyncContent.ListStoredExactly` | app/services/proxiware.py:791-994 | After a list the row of each listed id has host, port, status and eligibility of its last valid record, user name and password where given, and the listing subscription |
| `SyncContent.SubscriptionStoredExactly` | app/services/proxiware.py:718-790 | A subscription is stored as listed, its quota and used swaps untouched |
| `SyncCommit.SuccessLeavesTheContent` | app/services/proxiware.py:999-1047 | On every run the final commit of a successful pass leaves each listed id not deleted as its last valid record of the whole pass says, under the subscription that listed it; where another writer altered the row since the claim, at least its endpoint and credentials, unless it was blanked |
| `SyncCommit.WorldSyncedContent` | app/services/proxiware.py:999-1047 | The same for a sync beside swaps, probes and observations over one database |
| `SyncCommit.FinalContent` | app/services/proxiware.py:999-1047 | From any state that meets the invariants |
| `SyncCommit.StepContent` | app/services/proxiware.py:718-1019 | Every step of a sync, a probe or another writer keeps the rows of a running pass so |
| `SyncLaws.RunClaimedExactly` | app/services/proxiware.py:296-362 | A run is claimed exactly when none is alive and one is queued or may be created: the oldest, for at least a minute, every expired one failed |
| `SyncLaws.EnqueuedExactly` | app/services/proxiware.py:250-293 | A run is added exactly when none is queued and none is running that the caller minds |
| `SyncLaws.GuardedExactly` | app/services/proxiware.py:379-405 | A pass goes on with a renewed lease exactly while its run is alive under its token and uncancelled |
| `SyncLaws.FinishedExactly` | app/services/proxiware.py:999-1047 | The final transaction, row by row, if the lease held to its end, else nothing |
| `SyncLaws.OutcomeStoredExactly` | app/services/proxiware_qualification.py:349-378 | An outcome is written exactly if the row has the generation read and the claim of the probe, and nothing else of it changes |
| `SyncInvariants.ClaimInv` | app/services/proxiware.py:314-354 | A claim expires abandoned leases and leaves one running run |
| `SyncInvariants.WriteInv` | app/services/proxiware.py:718-998 | One subscription transaction keeps the sync invariants |
| `SyncInvariants.FinishInv` | app/services/proxiware.py:1000-1047 | The final transaction keeps them |
| `SyncInvariants.OthersInv` | app/services/proxiware_swap.py:1571-1571 | Swaps, dashboard and duplicate writes keep them |
| `SyncInvariants.RunInv` | app/services/proxiware.py:686-1072 | They hold on every run |
| `SyncModel.FirstQueued` | app/services/proxiware.py:334-338 | The oldest queued run, none only if none is queued |
| `SyncStore.Mirror.EnqueueSyncRun` | app/services/proxiware.py:250-293 | One queued run at most; beside a running one only if allowed |
| `SyncStore.Mirror.ClaimSyncRun` | app/services/proxiware.py:296-362 | Expiry and claim together, or nothing at all while another lease is live |
| `SyncStore.Mirror.RequestSyncCancel` | app/services/proxiware.py:365-376 | Cancels a queued run, flags a running one, once |
| `SyncStore.Mirror.CheckCancelled` | app/services/proxiware.py:379-405 | Renews the lease, or ends the pass as lost or canceled |
| `SyncStore.Mirror.RenewLease` | app/services/proxiware.py:601-626 | Matches only an unexpired lease of this claim |
| `SyncStore.Mirror.StoreProxy` | app/services/proxiware.py:791-994 | Insert or refresh of one listed proxy, column by column as `StoredExactly` spells out |
| `SyncStore.Mirror.StoreProxies` | app/services/proxiware.py:791-994 | The proxy loop and the ids it has seen |
| `SyncStore.Mirror.WriteSubscription` | app/services/proxiware.py:706-998 | One turn of the subscription loop, rolled back on a lost lease |
| `SyncStore.Mirror.MissAssignments` | app/services/proxiware.py:1011-1019 | The marking loop over the rows |
| `SyncStore.Mirror.FinishSync` | app/services/proxiware.py:1000-1047 | The final transaction, or nothing on a lost lease |
| `SyncStore.Mirror.SyncInventory` | app/services/proxiware.py:686-1051 | A pass nobody interrupts is a run of the sync steps that succeeds only by its final commit |
| `SyncStore.Mirror.RecordOutcome` | app/services/proxiware_qualification.py:349-378 | Checked and stored exactly if row, generation, identity and claim still match |
| `Composition.SwapsAreOtherWriters` | app/services/proxiware_swap.py:1206-1213 | Every swap step changes the shared tables only as the sync model allows other writers |
| `Composition.DeletionsAreSuccesses` | app/services/proxiware_swap.py:1571-1576 | A row disappears only as the old side of a swap that just succeeded |
| `Composition.SyncsAreEnvironment` | app/services/proxiware.py:718-1019 | Every sync and probe step changes the shared tables only as the swap model allows its environment |
| `DashboardModel.SnapshotIsWhole` | app/services/proxiware_dashboard.py:228-320 | An accepted snapshot puts each of its rows on one assignment of its own, not observed earlier than before, clears every other assignment of the subscription and touches no other subscription |
| `DashboardModel.ObservedKeepsListing` | app/services/proxiware_dashboard.py:160-320 | No observation and no duplicate mark deletes a row or touches an id, an identity, a generation or a listing |
| `DashboardModel.ResolveSnapshots` | app/services/proxiware_dashboard.py:259-281 | The loop accepts a snapshot exactly if every row is in scope, resolves, and repeats neither id nor assignment |
| `DashboardLaws.ResolvedExactly` | app/services/proxiware_dashboard.py:198-228 | An observation counts for a row exactly when it is within the age window, means that listed row and no other, and is no older than what the row shows |
| `DashboardLaws.SnapshotResolvedExactly` | app/services/proxiware_dashboard.py:259-281 | A snapshot counts exactly when all its rows are in scope, each counts, and no id and no row comes twice |
| `DashboardLaws.SnapshotWrittenExactly` | app/services/proxiware_dashboard.py:228-320 | And then each meant row shows its observation, the others of the subscription nothing, and no other column or row changes |
| `Composition.ObservationsAreBoth` | app/services/proxiware_dashboard.py:160-320 | Every observation is a step that the sync model and the swap model both allow, and deletes nothing |
| `Composition.WorldInv` | app/services/proxiware.py:1038-1050 | Swaps, syncs, probes and dashboard observations interleaved over one database, opened with subscriptions of any quota, keep both invariants |
| `WorldRun.SwapBesideSync` | app/proxiware_swap_service.py:346-449 | A run of that system under a quota of one: a sync lists a proxy, the dashboard shows it, it is swapped with one provider call while the sync is under way, and the sync ends in success without it and with its replacement |
| `Composition.QuotasStand` | app/services/proxiware.py:718-790 | In that system each subscription keeps the quota it was opened with |
| `Composition.WorldQuota` | app/services/proxiware_swap.py:895-913 | And one opened with a limited quota never has more used swaps plus jobs in mutation than that quota |
| `Composition.WorldCalls` | app/proxiware_swap_service.py:389-448 | And a job calls the provider at most once more than it was requeued |
| `Composition.WorldDeletions` | app/services/proxiware_swap.py:1571-1576 | Every id a running sync has missed by deletion is the old side of a recorded swap |
| `Composition.WorldListing` | app/services/proxiware.py:999-1047 | A sync that succeeds beside swaps leaves its valid listing: every listed id not deleted is present, every row not listed is missing, the subscriptions agree, nobody else wrote the inventory, and each listed id it lacks is the old side of a recorded swap |
| `WebSocketFrames.StreamRoundTrip` | app/earnapp_probe.py:105-145 | Reading the concatenation of any list of encoded frames, with payloads up to 2,000,000 bytes, any four-byte mask and any four-bit opcode, gives the same opcodes and payloads with the final bit set and consumes every byte |
| `WebSocketFrames.FrameRoundTrip` | app/earnapp_probe.py:105-145 | One encoded frame is read back whole with nothing left over |
| `WebSocketFrames.LaterBytesDoNotMatter` | app/earnapp_probe.py:129-145 | Bytes after a complete frame change nothing about it and stay unread |
| `WebSocketFrames.LengthRoundTrip` | app/earnapp_probe.py:114-120 | All three length forms are read back as the length |
| `WebSocketFrames.MaskTwice` | app/earnapp_probe.py:121-121 | Masking twice with one key is the identity |
| `WebSocketFrames.SendableEncodes` | app/earnapp_probe.py:107-112 | The encoder accepts exactly four-bit opcodes with a four-byte key, an empty key meaning a random one |
| `WebSocketFrames.BytesRoundTrip` | app/earnapp_probe.py:136-138 | The bytes of a number are read back as the number; `FrameLayout` says which bytes they are |
| `FrameLayout.ToBytesAt` | app/earnapp_probe.py:114-120 | Byte j of k is the number divided by 256 to the power k-1-j, modulo 256: the most significant byte first |
| `FrameLayout.FromBytesSum` | app/earnapp_probe.py:134-138 | Reading sums byte j times 256 to the power k-1-j |
| `FrameLayout.XorBitsAt` | app/earnapp_probe.py:121-121 | Bit k of a masked byte is set exactly when it is set in one of byte and key |
| `FrameLayout.MaskBits` | app/earnapp_probe.py:121-121 | Byte i of the payload is masked with key byte i modulo 4, bit by bit |
| `FrameLayout.EncodedLayout` | app/earnapp_probe.py:105-126 | The encoder sends final bit and opcode, mask bit and length in the shortest of the three forms, the key, and the payload masked with it |
| `FrameLayout.ReadLayout` | app/earnapp_probe.py:129-145 | The reader returns the frame these bits spell out, unmasked if the mask bit is set, fails as too large above 2,000,000 bytes and as truncated on missing bytes |
| `WebSocketFrames.Reader.ReadServerFrame` | app/earnapp_probe.py:129-145 | Consumes exactly the bytes of one frame, or fails as truncated or too large, as `ReadLayout` spells out |

## Left out

- Routes, templates, sessions, CSRF, scripts, deployment and static files: no logic of the protocols.
- Encryption, hashing, DNS, address parsing, TLS, SOCKS, browser automation, CAPTCHA and RPC transport: foreign calls whose answers are inputs.
- Schema creation and migration, and the SQL triggers between proxies and provider rows: every run starts from empty, current tables, and one of the joint system from any unspent subscriptions besides; the `sent` payout status and the `failed` swap state exist only on migrated rows and are not modelled.
- Text columns that no decision reads: error messages, reasons, latency, probe endpoints, heartbeats, audit events, health mode.
- NULL accrual cursors and probation starts of legacy rows: both are set on every row the code inserts.
- Which due rows a claim batch takes: order and limit are the caller's choice of ids; the swap queue's and the verifier's order are modelled.
- Texts are compared as stored, trimmed and in lower case; a country code is two letters A to Z; malformed timestamps of provider rows are not modelled.
- Bulk import, per-user proxy quota and duplicate-credential refusal: they only refuse inserts.
- No exit address is paid twice over the same time: not so in the code; `PaysAgainExactly` says exactly when, and `PaidAgainRun` reaches it.
- The outstanding-payout limit as an invariant: not so in the code; `OutstandingGrowth` says exactly when it grows.
- Changing a subscription's swap quota during a run, or calling the batch with a threshold other than the configured one: nothing in the code does.
- Rounding of displayed hours and the duration text.
- Deleting users, and the operator's retained auto-swap intent, which only decides when the setting is restored.
- DashboardModel.Observed: the two columns of duplicate detection and the row of a single observation are computed from rows read before the write, so any values and any row are allowed; the parsing of dashboard pages is not modelled.
- DashboardModel.ApplySnapshot: a function; of its loops the one over the snapshot's rows is also written as a loop.
- The provider's sync lock on schema bootstrap, counters of a sync run and the queueing of a sync after a confirmed mutation, which is an enqueue step of its own.
- EarningTheorems.PromotedAway: a pass nobody interrupts; the code commits after each promotion and before archiving, and over interleaved steps only `RunStar` speaks.
- EarningTheorems.NoOnlineRowLeftBehind: likewise a pass nobody interrupts.
- EarningTheorems.RunStar: needs its condition on late writes, which `StepStarExactly` shows is exact and two runs show can fail.
- EarningInvariants.PromoteInv: reads and writes at once; `PromoteToInv` covers the writes alone.
- EarningInvariants.LeaveInv: reads and writes at once; `LateLeaveInv` covers the writes alone.
- EarningModel.LateLeave: the canonical row and the losers are any earlier reading's, the followers are those of the moment of the UPDATE, as in the code.
- EarningTheorems.OnlyPromotionMovesTheCursor: says nothing about payments; the AddressPayments rows do.
- EarningStore.Store.EarningOnlineSeconds: one proxy and the configured stale limit, where the code takes a list of proxies and a limit.
- EarningStore.Store.AddProxy: without the duplicate-credential and quota refusals.
- EarningStore.Store.ReplaceProxy: without the duplicate-credential refusal, and reading and writing at once.
- EarningStore.Store.ArchiveProxy: reading and writing at once.
- EarningStore.Store.PromoteDuplicateIfDue: reading and writing at once.
- EarningStore.Store.ClaimDueProxies: the batch, its order and its fairness between hosts are the caller's.
- EarningStore.Store.ClaimDueEarnapp: the batch and its order are the caller's.
- PayoutStore.Desk.RunBatch: the exception path is `ReleaseClaim`, a step of its own.
- SwapStore.Queue.DecideSwap: always with a named assignment; the lookup without one is not modelled.
- SwapStore.Queue.CloseIfUnchanged: reads and writes at once; `SwapModel.ReadJob`, `SwapModel.Find` and `SwapModel.ActOn` are its parts, and all theorems about runs allow other steps between them.
- SwapStore.Queue.InferReplacement: likewise.
- SwapTheorems.InferenceIsUnambiguous: about reading and writing at once; for the parts `FindingsWereSeen` holds.
- SwapModel.CloseUnchanged: reads and writes at once; `SwapModel.ReadJob`, `SwapModel.Find` and `SwapModel.ActOn` are the three parts.
- SwapModel.Find: sees the tables at one moment, where the code's SELECTs see them one after another.
- SyncModel.Guard: renewal, cancel check and cancellation are one step, where the code commits the renewal first.
- SyncStore.Mirror.CheckCancelled: the same one step.
- EarningStore.Store.ArchiveDueDeadProxies: likewise a pass nobody interrupts.
- SwapStore.Queue.RunOnce: starts at the claim; the session, adapter and setting checks before it never touch a job; the block for a missing context and the manual-action codes of the exception path are left out.
- WebSocketFrames.Parse: a frame with a mask is unmasked whoever sent it, as in the code; timeouts of the connection are not modelled.
