# Brevyn Cloud control plane: a verified model

Brevyn Cloud keeps a local ledger and a job queue and pushes their effects to a remote
gateway (Sub2API).  This project models the protocols by which it does so and proves what
they keep over every run.  `dafny verify dfyconfig.toml` checks everything.

Conventions.  One SQL statement or transaction, one Redis command or script, and one call to
the gateway is one atomic step.  A protocol is a state with a function `Do` for its steps; a
run is a sequence of enabled steps.  Code that changes state in place is a class whose methods
perform the steps, with `Interfere` standing for anything others do between two of them; each
method is proved against the step function, so the run theorems speak about the methods.

| module | what it models |
|---|---|
| `Operations` | the `gateway_operations` table and its statements |
| `Dispatch` | scheduling a claimed batch on a bounded number of slots |
| `Workers` | any number of workers on one table, with time |
| `Redemptions` | pushing a redemption to the gateway, by three kinds of drivers at once |
| `Text`, `Pricing`, `SupportedModels` | string helpers, the pricing index, the models of a channel |
| `RowHistory`, `Catalogue`, `CatalogueSync`, `RawCatalogue` | the full model sync: closed form, the sync itself, and the closed form on the snapshot as sent |
| `Tokens` | refresh-token families (section 4.14.2 of RFC 9700) |
| `Limiter` | the in-memory login limiter |
| `Leases`, `Permits` | Redis slot leases and per-minute permits, and the acquire loop |
| `Keys` | API keys under concurrent provisioning, rotation and disabling |
| `Codes`, `Orders`, `Ledger` | redeem codes, the orders they come from, and the wallet ledger |
| `Backups` | the two-level lock around backup and restore |
| `OfficialModels`, `OfficialRoles` | the official-model configuration and its rows |

Results where the code and what one would expect of it part:

- Single ownership, the queue invariant and "nothing is stuck" are matters of timing, and hold
  under one and the same condition on the configuration (`Workers.OwnershipTheorem`,
  `Workers.QueueInvariant`, `Workers.NothingStuck`); the shipped defaults do not meet it
  (`Workers.ShippedDefaultsAreUnsafe`).  Otherwise a row can end failed with no attempt left,
  where no worker reaches it (`Workers.StuckRow`).
- The models of a channel are independent of map iteration order exactly when colliding mapping
  entries agree (`SupportedModels.OrderIndependenceTheorem`, `SupportedModels.CollisionExample`);
  which models a sync leaves active, up to case, never depends on it (`Catalogue.ActiveUpToCase`).
- The limiter's rate bound holds exactly when a block lasts at least a window
  (`Limiter.RateTheorem`).
- A bucket's permits are bounded exactly when no script runs after the minute it names
  (`Leases.BucketTheorem`, `Leases.LateScript`).
- Backup exclusion survives the loss of a session exactly when the session protects no body
  (`Backups.SessionTheorem`); a failed unlock keeps the lock with a pooled session, which is what
  `leaked` counts.
- A group change can succeed with old keys still active when the keys could not be listed; the
  result says so (`Keys.KeyService.ChangeUserGatewayGroup`).
- A used code has its redemption row exactly while its redeemer has not been deleted
  (`Codes.UsedExactlyOnce`, `Codes.DeletionOrphans`).
- An order is found again exactly when its source and reference were stored trimmed
  (`Codes.FoundAgain`); the handler always trims (`Codes.SanitizedIsTrimmed`).

## Model

| member | source | states |
|---|---|---|
| `Operations.StatementsKeepRowInv` | internal/gateway/operations/runner.go:163-233 | requeueing, claiming and admin requeue keep: pending has attempts left, failed is retryable with attempts left, running exactly when locked with 1 ≤ attempts ≤ max, completed exactly when succeeded or dead |
| `Operations.MarkKeepsRowInv` | internal/gateway/operations/runner.go:235-256 | marking keeps that shape when the row still is what the claim saw, and ends running |
| `Operations.OperationTable.RequeueStaleRunning` | internal/gateway/operations/runner.go:163-193 | exactly the rows locked for longer than staleAfter change: with attempts left they are failed and may be claimed from now on, otherwise dead for good; the count is theirs |
| `Operations.OperationTable.ClaimNext` | internal/gateway/operations/runner.go:195-233 | locks the first claimable row by (next_run_at, id) for the worker with one more attempt, or nothing exactly when none is claimable |
| `Operations.OperationTable.ClaimBatch` | internal/gateway/operations/runner.go:129-139 | a batch of distinct rows, each claimable before, all others untouched; a short batch means nothing claimable is left |
| `Operations.OperationTable.ProcessClaimed` | internal/gateway/operations/runner.go:235-256 | success and final errors end the row for good; a retryable error with attempts left makes it claimable from now plus the delay of the attempts the claim remembers, and not before; nothing else changes |
| `Operations.OperationTable.Insert` | internal/gateway/operations/operations.go:43-122 | idempotent creation: one row for a non-empty key, an existing row untouched, its id returned |
| `Operations.OperationTable.Retry` | internal/admin/gateway_operation_service.go:156-193 | refused for succeeded and running rows with nothing changed, otherwise pending and claimable at once with at least three attempts left |
| `Operations.OperationTable.RetryAllFailed` | internal/admin/gateway_operation_service.go:195-212 | revives exactly the retryable failed and dead rows in the same way and counts them |
| `Operations.BackoffSchedule` | internal/gateway/operations/operations.go:191-204 | the delays are 60, 300, 900, 3600, 3600 and from the sixth attempt 21600 seconds, and never shrink |
| `Operations.MarkMeaning` | internal/gateway/operations/operations.go:124-172 | what a mark makes of any row, by outcome and remembered attempts: status, completion, lock, and from when it may be claimed |
| `Operations.RetryMeaning` | internal/admin/gateway_operation_service.go:156-193 | an admin requeue gives a pending row, claimable from now on, with max attempts raised only to attempts + 3 |
| `Operations.RequeueMeaning` | internal/gateway/operations/runner.go:163-193 | a stale row is given back for another attempt at once, or ended when its attempts are spent |
| `Operations.OperationTable.CreateRedemptionSync` | internal/gateway/operations/operations.go:43-63 | one row for the key, pending with eight attempts, claimable after thirty seconds; an existing row is untouched |
| `Operations.OperationTable.EnsureRedemptionSync` | internal/gateway/operations/operations.go:174-189 | the same, claimable at once |
| `Operations.OperationTable.EnsureGatewayProvision` | internal/gateway/operations/operations.go:99-122 | the same for provisioning |
| `Operations.OperationTable.CreateFailed` | internal/gateway/operations/operations.go:65-97 | one row for the key, failed and claimable at once, or dead when the error is final |
| `Dispatch.StartBound` | internal/gateway/operations/runner.go:144-160 | for every dispatch on c slots whose runs last at most limit, operation i starts by its due time and ends by that plus limit |
| `Dispatch.StartWithinRounds` | internal/gateway/operations/runner.go:144-160 | operation i starts within ⌊i/c⌋·limit of the dispatch |
| `Dispatch.BatchBound` | internal/gateway/operations/runner.go:144-160 | a batch of n is over within ⌈n/c⌉·limit |
| `Dispatch.SlowestIsDispatch` | internal/gateway/operations/runner.go:144-160 | the bound is attained by a dispatch |
| `Dispatch.Launch` | internal/gateway/operations/runner.go:144-160 | the semaphore loop yields a dispatch: in order, never more than c at once, never waiting while a slot is free |
| `Workers.OwnershipTheorem` | internal/gateway/operations/runner.go:124-256 | in all reachable states no operation is held twice, and likewise every holder owns its row, if and only if claim window + ⌈n/c⌉·run limit ≤ staleAfter |
| `Workers.LostOwner` | internal/gateway/operations/runner.go:163-233 | otherwise a run exists in which a second worker claims an operation its first owner still executes |
| `Workers.StuckRow` | internal/gateway/operations/operations.go:150-172 | otherwise a run also exists in which the first owner's mark, decided from its snapshot, leaves a row failed with no attempt left: not over, and out of every worker's reach for ever |
| `Workers.ShippedDefaultsAreUnsafe` | internal/config/config.go:83-86 | batch 10, 3 slots, 5 minutes and 90 second runs are on the wrong side, whatever the claim window |
| `Workers.QueueInvariant` | internal/gateway/operations/runner.go:163-256 | the row shape holds in every reachable state, with creation and both admin requeues, if and only if claim window + ⌈n/c⌉·run limit ≤ staleAfter |
| `Workers.TimingOnRuns` | internal/gateway/operations/runner.go:124-160 | in every run no claim is held for longer than the hold bound |
| `Workers.SafeOnRuns` | internal/gateway/operations/runner.go:124-256 | under that condition every run keeps row shape and single ownership from any state that has them |
| `Workers.ClaimsSpendBudget` | internal/gateway/operations/runner.go:195-233 | without creation and requeue, claims made plus attempts left is constant, so claims are bounded by the attempts left |
| `Workers.NothingStuck` | internal/gateway/operations/runner.go:163-256 | in all reachable states the rows out of every worker's reach, however far time goes, are exactly the succeeded and dead ones, if and only if claim window + ⌈n/c⌉·run limit ≤ staleAfter |
| `Redemptions.ExactlyOnce` | internal/redeem/gateway_sync_service.go:258-331 | over every interleaving a redemption takes effect at most once, and exactly once if its status is synced or its operation succeeded |
| `Redemptions.RemoteConservation` | internal/redeem/gateway_sync_service.go:258-293 | the remote balance is the gateway's own changes plus each taken redemption's amount once |
| `Redemptions.EffectIsChosen` | internal/redeem/gateway_sync_service.go:310-331 | every effect at the gateway is the one asked for: of a page it listed for the user and group, not naming the redemption, a renewable subscription that none outlasts is extended, and only without any a new one assigned until now plus the days |
| `Redemptions.SubscriptionConservation` | internal/redeem/gateway_sync_service.go:310-331 | the expiry of every subscription is the gateway's own changes plus what each redemption gave it, once |
| `Redemptions.ExtensionIsExact` | internal/redeem/gateway_sync_service.go:318-322 | an extension that lands adds exactly the redemption's days to its subscription and touches no other |
| `Redemptions.RedeemCommits` | internal/auth/handler.go:2740-2781 | committed pending with a pending operation and, for balance, a ledger row, and nothing pushed |
| `Redemptions.SyncedMeansAgreement` | internal/auth/handler.go:1949-2032 | once all of a user's balance redemptions are synced, remote and local ledger agree up to the gateway's own changes |
| `Redemptions.RunKeepsInv` | internal/redeem/gateway_sync_service.go:258-393 | the invariant behind these, kept by every enabled action; keys once taken stay taken |
| `Redemptions.LatestRenewable` | internal/redeem/gateway_sync_service.go:361-393 | a renewable subscription that no renewable one outlasts, ties by id; none exactly when none is renewable |
| `Redemptions.Gateway.CallRemote` | internal/redeem/gateway_sync_service.go:270-293 | success means the key is taken; an error may hide a call that landed |
| `Redemptions.Gateway.ListSubscriptions` | internal/redeem/gateway_sync_service.go:333-346 | subscriptions of the user in the group, all of them or a full page of a hundred, recorded as listed |
| `Redemptions.Gateway.SyncSubscription` | internal/redeem/gateway_sync_service.go:310-359 | unless the page names the redemption, the call it asks for is made; with a delivered answer success and effect are the same; nothing without a listing |
| `Redemptions.Gateway.CallFor` | internal/redeem/gateway_sync_service.go:318-331 | extends the latest renewable subscription of the page or assigns one, as an enabled call |
| `Redemptions.Gateway.SyncTarget` | internal/redeem/gateway_sync_service.go:258-331 | a complete target whose settings and account load reaches the gateway, unless shown applied; success implies the key is taken; unsupported or incomplete targets touch nothing |
| `Redemptions.Gateway.Execute` | internal/admin/gateway_operation_executor.go:47-98 | pushes exactly when user and settings allow and the redemption is not synced; success exactly when push, status write and key succeed; the redemption is marked synced or failed accordingly |
| `Redemptions.Gateway.WorkerSync` | internal/gateway/operations/runner.go:235-256 | the mark follows the outcome; a synced redemption is not pushed again and succeeds with account and key |
| `Redemptions.Gateway.HandleRedeem` | internal/auth/handler.go:1949-2032 | the committed redemption is pushed; synced exactly when push, settings and status write succeed; a failure marks the operation failed or dead and leaves gateway_failed |
| `Redemptions.Gateway.RetrySync` | internal/admin/redemption_sync_handler.go:21-162 | the admin's unguarded push: already synced and inactive users change nothing, each outcome has its own result, and after a failed push the operation has left running |
| `Pricing.BuildIndex` | internal/admin/gateway_model_sync_service.go:744-779 | the index represents the list: exact entries and wildcard prefixes by platform, first listing first |
| `Pricing.LookupModelPricing` | internal/admin/gateway_model_sync_service.go:781-803 | lookup in an index that represents a list equals the two-pass scan of the list |
| `Pricing.PriceOf` | internal/admin/gateway_model_sync_service.go:744-803 | building and looking up equals the scan, for every list, platform and model |
| `Pricing.ScanMeaning` | internal/admin/gateway_model_sync_service.go:781-803 | the price is the first exact match in list order; only without one the first pattern whose prefix matches; none exactly when nothing matches |
| `Pricing.FirstExactIsLeftmost` | internal/admin/gateway_model_sync_service.go:781-803 | the first pass finds the leftmost exact match, and none exactly when there is none |
| `Pricing.FirstWildcardIsLeftmost` | internal/admin/gateway_model_sync_service.go:781-803 | the second pass finds the leftmost wildcard whose prefix matches, and none exactly when there is none |
| `Pricing.ListedIsFound` | internal/admin/gateway_model_sync_service.go:744-803 | a concrete name listed for a platform has a price there |
| `SupportedModels.OrderIndependenceTheorem` | internal/admin/gateway_model_sync_service.go:630-686 | calls return the same list for all iteration orders if and only if colliding mapping entries say the same |
| `SupportedModels.SeenTheorem` | internal/admin/gateway_model_sync_service.go:633-677 | the same of the candidates collected before sorting |
| `SupportedModels.ListingExists` | internal/admin/gateway_model_sync_service.go:679-686 | the candidates of every order have a strictly sorted list |
| `SupportedModels.CollisionExample` | internal/admin/gateway_model_sync_service.go:653-669 | a channel whose list depends on the order |
| `SupportedModels.PrecedenceOfFirst` | internal/admin/gateway_model_sync_service.go:653-677 | mapping entries take precedence over the pricing list |
| `SupportedModels.MappedBy` | internal/admin/gateway_model_sync_service.go:653-669 | a key is mapped exactly when an entry contends for it, and to a contender's candidate |
| `SupportedModels.ListingUnique` | internal/admin/gateway_model_sync_service.go:679-686 | strictly sorted lists of the same candidates are equal |
| `SupportedModels.CollectMapped` | internal/admin/gateway_model_sync_service.go:653-669 | the nested map loops compute the candidates of the order they run in |
| `SupportedModels.CollectListed` | internal/admin/gateway_model_sync_service.go:671-677 | the pricing loop adds what is not there yet |
| `SupportedModels.SortedItems` | internal/admin/gateway_model_sync_service.go:679-686 | a strictly sorted, duplicate-free list of exactly the candidates |
| `SupportedModels.Supported` | internal/admin/gateway_model_sync_service.go:630-686 | the whole function: the sorted list of the candidates for the order used |
| `RowHistory.ReplayActive` | internal/admin/gateway_model_sync_service.go:146-178 | a row ends active exactly when it started active or some channel offered it |
| `RowHistory.LastWriter` | internal/admin/gateway_model_sync_service.go:146-178 | a row ends as the last channel that wrote it left it |
| `RowHistory.NoWriter` | internal/admin/gateway_model_sync_service.go:146-178 | a row no channel writes is what accounts made it |
| `RowHistory.StartForgotten` | internal/admin/gateway_model_sync_service.go:80-178 | from two inactive starts a row ends active and equal, or unchanged in both |
| `Catalogue.ActiveRows` | internal/admin/gateway_model_sync_service.go:80-185 | after a sync, in whatever orders maps were iterated, the active rows are exactly the triples usable accounts and active channels contribute |
| `Catalogue.LastChannelWins` | internal/admin/gateway_model_sync_service.go:536-742 | a row's price and channel are those of the last channel touching it; without one it is bare or inactive |
| `Catalogue.FinalPrice` | internal/admin/gateway_model_sync_service.go:536-742 | a written row's price is the last writing channel's own lookup of the model, else the lookup of the target its mapping gives it, which may be nothing |
| `Catalogue.UnpricedUsesTarget` | internal/admin/gateway_model_sync_service.go:653-669 | a model its channel offers and does not price itself carries the mapped target's pricing, if any |
| `Catalogue.SyncIdempotent` | internal/admin/gateway_model_sync_service.go:50-220 | when colliding entries agree a second sync of the same snapshot changes nothing, whatever orders the two use |
| `Catalogue.SyncDeterministic` | internal/admin/gateway_model_sync_service.go:50-220 | and two syncs of one table give the same result |
| `Catalogue.ActiveUpToCase` | internal/admin/gateway_model_sync_service.go:630-695 | even when they disagree, two syncs of a snapshot leave the same models active up to case, and so the same count |
| `CatalogueSync.NormalizeGroups` | internal/admin/gateway_model_sync_service.go:222-256 | the group map: the last group listed under each positive id |
| `CatalogueSync.AccountGroups` | internal/admin/gateway_model_sync_service.go:364-402 | the distinct positive ids from both lists |
| `CatalogueSync.AccountModels` | internal/admin/gateway_model_sync_service.go:577-628 | exactly the concrete trimmed names mapped to strings |
| `CatalogueSync.FoundIsOffer` | internal/admin/gateway_model_sync_service.go:630-686 | the list a channel returns holds exactly the offers of the closed form for the order used |
| `CatalogueSync.CatalogueTable.MarkAllInactive` | internal/admin/gateway_model_sync_service.go:80-86 | every row inactive and otherwise unchanged |
| `CatalogueSync.CatalogueTable.UpsertAndMark` | internal/admin/gateway_model_sync_service.go:536-575 | the row replaced and active; the counter stays the number of active rows up to case |
| `CatalogueSync.CatalogueTable.SyncAccount` | internal/admin/gateway_model_sync_service.go:95-129 | exactly the rows the account offers become active without price |
| `CatalogueSync.CatalogueTable.Backfill` | internal/admin/gateway_model_sync_service.go:697-742 | exactly the active rows of the group's platform that the channel prices are rewritten, with their own lookup |
| `CatalogueSync.CatalogueTable.SyncChannel` | internal/admin/gateway_model_sync_service.go:146-178 | for every order, every row changes by the channel's impact, also when a group is listed twice |
| `CatalogueSync.CatalogueTable.SyncModels` | internal/admin/gateway_model_sync_service.go:50-220 | for every snapshot and all orders the table ends in the closed form and syncedModels is the number of active rows up to case |
| `RawCatalogue.ActiveExactly` | internal/admin/gateway_model_sync_service.go:50-220 | on the snapshot as sent: after a sync a name is active for a group and platform, up to case, exactly if a usable account or an active channel of the group maps or prices it |
| `RawCatalogue.StoredExactly` | internal/admin/gateway_model_sync_service.go:536-742 | a written row stores what its last channel sent for the model, or for its mapped target, by rates, names, platform and billing mode, or no price |
| `RawCatalogue.UnwrittenExactly` | internal/admin/gateway_model_sync_service.go:80-129 | a row no channel writes is bare if an account has it, else as before and inactive |
| `RawCatalogue.ScanNormal` | internal/admin/gateway_model_sync_service.go:408-426 | a lookup finds the same price before and after normalising, up to normalising the price |
| `RawCatalogue.NormModelsExact` | internal/admin/gateway_model_sync_service.go:417-424 | exactly the trimmed non-empty names survive |
| `RawCatalogue.NormModelsAt` | internal/admin/gateway_model_sync_service.go:417-424 | each in its place |
| `RawCatalogue.ServedIsRaw` | internal/admin/gateway_model_sync_service.go:222-256 | a row's group takes part exactly if the last group sent under its id is active on the row's platform |
| `Tokens.FamilyChain` | internal/auth/handler.go:2089-2231 | in every reachable state a family is one path through replaced_by, increasing, of one user, whose last token alone is not rotated; at most one is active |
| `Tokens.ReuseKillsFamily` | internal/auth/handler.go:2173-2183 | once a rotated token is presented and the revocation commits, no continuation has an active token of the family or adds one |
| `Tokens.DeadForever` | internal/auth/handler.go:2147-2231 | a family without an active token is frozen for ever, also after logout and expiry |
| `Tokens.RotatedForever` | internal/auth/handler.go:2202-2213 | a rotated token keeps its one successor for ever |
| `Tokens.GrowthSpendsActive` | internal/auth/handler.go:2194-2213 | a family grows only by spending its active token, by one |
| `Tokens.RotationCarriesOn` | internal/auth/handler.go:2194-2219 | after a rotation the successor is the family's only active token, and presenting it before it expires succeeds, whatever happened to other families |
| `Tokens.PathIsMembers` | internal/auth/handler.go:2202-2213 | following replaced_by from a token lists exactly the later tokens of its family |
| `Tokens.RunKeepsInv` | internal/auth/handler.go:2089-2231 | the link invariant over every run |
| `Tokens.TokenStore.IssueTokenPair` | internal/auth/handler.go:2094-2145 | one active token of the user in a fresh family, expiring after the lifetime; nothing else changes |
| `Tokens.TokenStore.RotateRefreshToken` | internal/auth/handler.go:2147-2219 | succeeds exactly for an active, unexpired token signed for its user and family, of an active user, when the transaction commits; then the successor is active, of the same user and family, with the new expiry, and all other rows are as before; reuse ends the family, lateness expires the token, all else changes nothing |
| `Tokens.TokenStore.RevokeRefreshToken` | internal/auth/handler.go:2221-2231 | an active token becomes revoked; nothing else changes |
| `Limiter.RateTheorem` | internal/admin/handler.go:653-707 | all runs let at most 2·max−2 failures (one, if max ≤ 1) through in any half-open window if and only if the block lasts at least a window |
| `Limiter.TwoBursts` | internal/admin/handler.go:670-686 | the run that exceeds the bound when it does not |
| `Limiter.BoundAttained` | internal/admin/handler.go:670-686 | the bound is attained for every limit and every window of at least two clock units, and of one unit for limits up to two |
| `Limiter.PruningUnobservable` | internal/admin/handler.go:698-707 | pruning and other keys are invisible: every key is treated as by a limiter of its own that never prunes |
| `Limiter.SharedRateBound` | internal/admin/handler.go:653-707 | the bound for every key in every run of the shared limiter |
| `Limiter.SharedKey` | internal/admin/handler.go:694-696 | two logins share a key exactly if address and, up to case, email agree |
| `Limiter.LoginLimiter.Blocked` | internal/admin/handler.go:653-668 | blocked exactly before blockedUntil, with the remaining time; an elapsed block is deleted |
| `Limiter.LoginLimiter.PruneExpired` | internal/admin/handler.go:698-707 | deletes exactly the stale entries that are not blocked |
| `Limiter.LoginLimiter.RecordFailure` | internal/admin/handler.go:670-686 | prunes, counts within the window or starts anew, blocks at the limit |
| `Limiter.LoginLimiter.TryLogin` | internal/admin/redis_guards.go:46-76 | after any history a login has the outcome and map of the run, so the theorems apply |
| `Leases.SlotsBounded` | internal/redeem/gateway_sync_service.go:761-781 | in every reachable state at most `concurrency` leases are live and at most so many holders are within their lease |
| `Leases.LeaseIsSafe` | internal/redeem/gateway_sync_service.go:773-777 | until it expires only its own holder's release removes a lease, over every run of others |
| `Leases.LeakExpires` | internal/redeem/gateway_sync_service.go:769-777 | a lease nobody gives back is gone after its lifetime |
| `Leases.MinuteBounded` | internal/redeem/gateway_sync_service.go:783-833 | no minute grants more than the limit before it is over |
| `Leases.RefusalIsEarned` | internal/redeem/gateway_sync_service.go:783-833 | during the minute a permit is free exactly if fewer than the limit were granted |
| `Leases.LateScript` | internal/redeem/gateway_sync_service.go:788-808 | for every limit, a script that runs at the end of its minute takes the bucket one beyond the limit |
| `Leases.BucketTheorem` | internal/redeem/gateway_sync_service.go:783-833 | in all runs whose scripts are less than a given time late every bucket grants at most the limit, if and only if that time is zero |
| `Leases.RunKeepsInv` | internal/redeem/gateway_sync_service.go:707-833 | slot and minute invariants over every run |
| `Permits.PermitService.SetNXOnce` | internal/redeem/gateway_sync_service.go:769-772 | an answer says whether the slot is ours; no answer exactly when the network or the deadline prevents it |
| `Permits.PermitService.TrySlot` | internal/redeem/gateway_sync_service.go:761-781 | a slot held under a fresh token, or every slot found taken, or a command without an answer; nothing of its tokens stays unless an answer was lost |
| `Permits.PermitService.ReleaseSlot` | internal/redeem/gateway_sync_service.go:773-777 | a release that arrives leaves nothing of its token and every other token as it was |
| `Permits.PermitService.AllowRate` | internal/redeem/gateway_sync_service.go:783-833 | one grant exactly when allowed, with the limit on; a refusal is the script's and its wait ends with the bucket's key |
| `Permits.PermitService.Charge` | internal/redeem/gateway_sync_service.go:728-750 | with a slot in hand, every outcome but success gives the slot back |
| `Permits.PermitService.AcquirePermit` | internal/redeem/gateway_sync_service.go:707-759 | unless an answer was lost, failure leaves no slot and no grant of the call, success exactly one of each; a failure has its reason, and gives up only after fifteen seconds or with the caller; the loop ends |
| `Permits.PermitService.ReleasePermit` | internal/redeem/gateway_sync_service.go:738-742 | gives the slot back and removes no other lease |
| `Keys.AtMostOneActive` | internal/platform/schema.go:591-593 | at most one active key for a user and group in every reachable state, and secrets exactly on active rows |
| `Keys.RacersAgree` | internal/redeem/gateway_sync_service.go:640-705 | provisioners whose calls lie in a stretch without disabling return the same key |
| `Keys.ActiveStays` | internal/redeem/gateway_sync_service.go:1118-1143 | in such a stretch an active row stays the active one with its secret |
| `Keys.RunGrows` | internal/admin/gateway_key_service.go:517-526 | rows never change hands and never become active again |
| `Keys.KeyService.InsertKey` | internal/admin/gateway_key_service.go:747-768 | a new active row, or a unique violation exactly when there is one already |
| `Keys.KeyService.EnsureGatewayAPIKey` | internal/redeem/gateway_sync_service.go:640-705 | with any interference and no lock: a key found active is returned, otherwise the created one if it can be stored, otherwise the one read again; whatever is returned was the active row with that secret during the call |
| `Keys.KeyService.ActiveRecords` | internal/admin/gateway_key_service.go:551-592 | a listing that succeeds has exactly the active rows in scope, newest first |
| `Keys.KeyService.DisableForGroup` | internal/admin/gateway_key_service.go:402-427 | a failed listing is reported and changes nothing; otherwise exactly the listed rows whose update fails are reported, and no other row in scope stays active |
| `Keys.KeyService.RotateUserAPIKey` | internal/admin/gateway_key_service.go:202-246 | stored exactly if there is an account and no key of the group is active at that moment; then the new key is the remote one and no old key of the group is active, even when listing or disabling failed |
| `Keys.KeyService.ChangeUserGatewayGroup` | internal/admin/gateway_key_service.go:248-291 | the same for the new group; an old key of another group is active after it only if its failure, or that of the listing, is reported |
| `Codes.BatchConservation` | internal/admin/catalog_service.go:194-284 | unused + used + disabled is the quantity of every batch in every reachable state |
| `Codes.UsedExactlyOnce` | internal/auth/handler.go:2728-2759 | used exactly when redeemed by some step; never two redemption rows; one exactly while the redeemer exists |
| `Codes.DeletionOrphans` | internal/admin/user_service.go:297-306 | deleting the redeemer leaves a used code without a redemption row |
| `Codes.FinalStatus` | internal/admin/catalog_service.go:423-471 | used and disabled are final over every continuation |
| `Orders.CodesAsOrdered` | internal/admin/catalog_service.go:230-258 | at every moment of every run a code has the product, the expiry and a secret of the order that created its batch |
| `Orders.BatchesAsOrdered` | internal/admin/catalog_service.go:220-273 | and a batch its source, reference, quantity and stored codes |
| `Orders.DisabledByStep` | internal/admin/catalog_service.go:423-471 | a code is disabled only by a step that disables it or its batch |
| `Codes.OrderReplay` | internal/admin/catalog_service.go:194-215 | however much happens in between, a repeated order creates nothing and finds the batch whose codes are the original ones |
| `Codes.ReplayFindsOriginal` | internal/admin/catalog_service.go:357-421 | the lookup finds the one batch of an order, up to case |
| `Codes.FoundAgain` | internal/admin/catalog_service.go:357-421 | an order is found again exactly if stored trimmed, and never generated twice |
| `Codes.SanitizedIsTrimmed` | internal/admin/text_sanitize.go:12-26 | what the handler passes on is trimmed |
| `Codes.RunKeepsInv` | internal/admin/catalog_service.go:194-284 | the stored list of a batch is the list of its codes; orders and secrets are unique |
| `Codes.CodeStore.GenerateRedeemCodes` | internal/admin/catalog_service.go:194-284 | a known order gets its original codes or a duplicate error; a new one gets one batch with one unused code for each secret, of its product and expiry, or an error; errors create nothing |
| `Codes.CodeStore.DisableRedeemCode` | internal/admin/catalog_service.go:423-443 | succeeds exactly for an unused code, which becomes disabled; nothing else changes |
| `Codes.CodeStore.DisableRedeemBatch` | internal/admin/catalog_service.go:445-471 | disables and counts exactly the unused codes of the batch; nothing else changes |
| `Ledger.LedgerConservation` | internal/auth/handler.go:2670-2781 | for every run and existing user the total is the balance the orders of the redeemed codes were worth, plus distinct grants, plus adjustments |
| `Ledger.DeletedHasNothing` | internal/admin/user_service.go:297-306 | a deleted user has no ledger, whatever is asked for later |
| `Ledger.SyncAgrees` | internal/admin/user_service.go:374-392 | after a gateway sync the total is within 0.000001 of the remote balance |
| `Ledger.ReplayedGrant` | internal/admin/gateway_key_service.go:604-677 | replaying a grant's key adds nothing, however late and whatever the amount |
| `Ledger.GrantsRecorded` | internal/admin/gateway_key_service.go:658-677 | a grant row with a reference is there exactly if the run asked for it |
| `Ledger.SharedReference` | internal/admin/gateway_key_service.go:670-677 | grants share a reference exactly if administrator, user and trimmed key agree |
| `Ledger.Wallet.MarkRedeemedLocally` | internal/auth/handler.go:2670-2781 | used, expired, unsupported and incomplete codes have their errors and change nothing; otherwise the code is used by the user, one redemption row is added, and for balance one ledger row of its value |
| `Ledger.Wallet.InsertAdminBalanceGrant` | internal/admin/gateway_key_service.go:604-656 | a new row of the amount, or the old one for a used key, or none for a deleted user |
| `Ledger.Wallet.SyncSub2APIUser` | internal/admin/user_service.go:308-398 | one row of the difference exactly when it exceeds the tolerance; within the tolerance afterwards |
| `Backups.Exclusion` | internal/admin/backup_service.go:325-349 | in every run, of two running bodies one has lost its session, and no process has both flags up |
| `Backups.EverythingFreed` | internal/admin/backup_service.go:822-883 | when all operations are over every flag is down, and the lock is free exactly if no unlock failed |
| `Backups.LostSession` | internal/admin/backup_service.go:860-883 | from every world with a protected body, losing its session leads to a run with two bodies |
| `Backups.SessionTheorem` | internal/admin/backup_service.go:325-349 | in every world of a run that kept its sessions one body runs at most; losing a session keeps it so in all continuations if and only if the session protects no body |
| `Backups.KeptRun` | internal/admin/backup_service.go:860-883 | every body has its session in every run that keeps the protecting ones |
| `Backups.UnflagKeepsFlagInv` | internal/admin/backup_service.go:835-858 | lowering a flag unconditionally lowers exactly the flag the operation took |
| `Backups.RunKeepsInv` | internal/admin/backup_service.go:822-883 | the flag and lock invariants over every run, with crashes and lost sessions |
| `Backups.Cluster.AcquireBoth` | internal/admin/backup_service.go:822-883 | both levels exactly if the flags are down, the query answered and the lock free when asked for; otherwise an error by the flag or lock in the way, with nothing kept |
| `Backups.Cluster.StartBackup` | internal/admin/backup_service.go:325-349 | a running body exactly if both levels are taken and the record is written, else an error after which the operation holds nothing |
| `Backups.Cluster.StartRestore` | internal/admin/backup_service.go:450-490 | the same with a completed backup found and its state updated; disabled restores touch nothing |
| `Backups.Cluster.RunBody` | internal/admin/backup_service.go:340-347 | after the deferred releases the operation holds nothing |
| `OfficialModels.NormalIdempotent` | internal/admin/gateway_group_service.go:540-575 | normalising twice is normalising once; names are trimmed, distinct up to case, and the default is one of them |
| `OfficialModels.DedupKeepsFirst` | internal/admin/gateway_group_service.go:540-555 | the first spelling of every name is kept |
| `OfficialModels.Normalize` | internal/admin/gateway_group_service.go:540-561 | the loop computes the normal form |
| `OfficialModels.EnsureDefault` | internal/admin/gateway_group_service.go:563-575 | the first model equal to the wanted one up to case, else the very first, else empty |
| `OfficialRoles.RoundTrip` | internal/admin/gateway_group_service.go:421-538 | saving and reading back by sort order gives the same lists and defaults, for every result of the query |
| `OfficialRoles.ReadPurposes` | internal/admin/gateway_group_service.go:421-479 | what is read back names exactly the purposes with models |
| `OfficialRoles.OneDefault` | internal/admin/gateway_group_service.go:507-526 | exactly one default row for a purpose with models, none otherwise |
| `OfficialRoles.GatewayGroups.UpdateOfficialModelConfig` | internal/admin/gateway_group_service.go:481-538 | succeeds exactly for a known group, available models and unrepeated purposes, with an error for each obstacle; the table is the saved one or unchanged |
| `OfficialRoles.GatewayGroups.Save` | internal/admin/gateway_group_service.go:496-537 | the rows of the configuration and all others as before, or a rollback on a repeated purpose |
| `OfficialRoles.GatewayGroups.AttachOfficialModelConfig` | internal/admin/gateway_group_service.go:421-479 | each purpose's models in row order with the last default, made sure of |

## Left out

- HTTP handlers, routing, cookies, audit text, list and search queries, dashboards and the React UI: plumbing.
- The gateway client beyond an abstract remote that honours Idempotency-Keys, and error classification beyond its retryable bit, which is an arbitrary value.
- Cryptography: hashes are taken as injective, encryption as a round trip, tokens as row ids with signed claims.
- pg_dump, pg_restore, S3, files and cron in the backup service; backup records and their statuses.
- Unicode: trimming and case folding are the ASCII versions.
- Floating point: money is `real` in the ledger and `int` in the redemption model.
- `balance_after`: redeeming reads the sum without locking the user, so only the summed ledger is claimed.
- Remote grants whose replayed key carries another amount: the code does not compare amounts.
- Display names, families, capabilities and timestamps of catalogue rows, the group, account and channel tables, and the counters of synced accounts and channels.
- Deletion of users in the token, key and redemption models: it removes all of a user's rows at once; codes and ledger do model it.
- Operations other than redemption syncs in the exactly-once model, and attempt counters there: the queue model has them.
- The Redis-backed login guards and the Redis limiter of the user login.
- Database transactions are atomic steps: a transaction that sees part of another's work is not modelled, nor is a database that fails halfway through one statement.
- Workers.OwnershipTheorem: one clock for all workers, and the time from launch to mark is the run limit; the code bounds the execution and the mark separately.
- Redemptions.SubscriptionConservation: expiry and days are counted in one unit, and an extension of a subscription with the zero expiry starts from zero.
- Redemptions.ExactlyOnce: assumes that subscription notes naming a redemption are written by this path alone, and a remote that honours its keys.
- Redemptions.Gateway.ListSubscriptions: which hundred of more than a hundred matching subscriptions are on the page is arbitrary; the requested order by expiry is not modelled.
- Catalogue.SyncIdempotent: ids and times of rows are not part of the model.
- Catalogue.ActiveUpToCase: for platform names without the NUL character that separates the parts of a key.
- RawCatalogue.ActiveExactly: likewise.
- Limiter.SharedKey: for addresses without the NUL character that separates the parts of a key.
- Limiter.RateTheorem: the check and the record of a login happen at one instant, on a clock that does not run backwards, and failures are counted since the last success.
- Tokens.ReuseKillsFamily: for a revocation that commits; the code ignores a failed commit.
- Leases.MinuteBounded: the clock that names the minute is not ahead of the clock of Redis.
- Permits.PermitService.AcquirePermit: an answer lost by the network or a release that does not arrive leaves a lease until it expires.
- Backups.Cluster.AcquireBoth: an error from the try-lock query is taken to mean that the lock was not acquired.
- Keys.KeyService.EnsureGatewayAPIKey: remote keys are arbitrary values; whether the gateway still honours one is not modelled.
