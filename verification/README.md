# Verified model of the wallet activity backend

This project models the parts of the backend whose correctness lies in interleavings, and proves properties of
the model over every run. `dafny verify dfyconfig.toml` checks all of it.

Each component is a state machine whose steps are single SQL statements, single transactions, provider calls,
lock acquisitions, promise completions or crashes. Clocks, provider replies and lost requests are arbitrary. Beside the
machines, the repositories' and services' own operations are classes and methods over the same tables, proved
against the functions the machines step with.

- **Watch reconciliation** (`Markers`, `WalletWrites`, `WalletStore`, `Protocol*`, `ReconciliationWorker`): wallet and
  account transactions mark chain/address pairs dirty, workers claim, compare, patch and complete under leases and
  pair locks, and a drift sweep enqueues what differs. Proved: no drift is ever lost, stale claims are harmless, the
  sweep repairs arbitrary drift, locks cover changes, and there is no deadlock.
- **Holdings, positions, snapshots** (`Holdings*`, `Positions*`, `PortfolioSnapshot`, `Snapshot*`): caches, fallbacks and shared
  fetches. Proved as information flow: callers that demand live data never receive persisted data, every result served
  is one the provider returned or a row held, wallets and chains are never mixed up, and nothing incomplete or stale is
  ever presented as complete and current.
- **Account deletion** (`Reauth*`): challenges, the Google callback, grants and the deletion. The PKCE verifier and its
  use follow sections 4.1 to 4.6 of RFC 7636.
- **Email codes and sessions** (`Auth*`): issuance and guess limits, refresh rotation, resets and revocation.
- **Notifications and ingestion** (`Outbox*`, `WalletEvents`, `TransferLogs`, `Tracker*`): per-device delivery states,
  claim and retry loops, and the block cursor over idempotent inserts; polls are replayed as runs of the machine.
- **History and pagination** (`Activity*`, `Pagination`): grouping of events against the stored table, and the three
  pagination loops against an arbitrary provider.

Six properties turn out not to hold unconditionally, and the model says exactly when they do:

- A transaction item of the grouped history can be a page-split fragment. Events of an incomplete transaction are
  grouped one by one, and a single NFT mint is classified as a mint of its own
  (`src/modules/events/eventActivityGrouper.js:106-115`). `FragmentsExactlyWhen` shows that this is the only case.
- A configured start block makes the tracker rescan from it at every poll and can lower the stored cursor
  (`src/modules/ethereum/ethereum.tracker.js:257-264`): exactly under such a configuration (`MonotoneExactlyWhen`), and
  for one poll exactly when its first batch ends below the cursor (`PollLowersCursorExactlyWhen`).
- Without a stored cursor a poll stores none, unless the block number the tracker asks for a second time
  (`src/modules/ethereum/ethereum.tracker.js:276`) is below the first (`FirstCursorExactlyWhen`).
- Holdings and positions answers can be about an address their wallet had before, since wallet-level keys leave the
  address out (`src/modules/holdings/holdings.service.js:29-35`, `src/modules/positions/positions.service.js:50-56`):
  exactly when requests of one wallet with the same chains read different addresses (`OwnAddressExactlyWhen`).
- A snapshot can add holdings and positions of different chains or addresses, since each request of a summary reads the
  wallet's row itself (`src/modules/portfolioSummary/portfolioSummary.service.js:134-142`): exactly when two records of
  one wallet that may be read for it disagree (`SameChainsExactlyWhen`, `SameAddressExactlyWhen`).
- The logout of a token without a session does not end it when the token is stamped ahead of the database's clock
  (`src/modules/auth/session.repository.js:112-120`): exactly then (`LegacyLogoutExactlyWhen`).

Assumptions about the environment: drawn identifiers, tokens, digests and secrets are new; lock keys do not collide and
a lock's connection is not lost while the lock is held; a PATCH takes effect between its call and its return or error,
or never; a full address listing is a snapshot; only workers change the provider's watched set, except where a step for
external drift says otherwise, and none happens while a sweep runs; transactions read one clock each, and clock
readings do not go back in commit order; a row of a persisted holdings or positions table holds what was fetched for its
wallet, address and chain.

## Model

| member | source | states |
|---|---|---|
| `ProtocolTheorems.NoLostDrift` | `src/modules/webhooks/alchemyAddressReconciliation.service.js:43-93` | in every interleaving of wallet and account mutations, sweeps, claims, lease expiries, provider failures, crashes and completions, a pair whose desired state differs from the watched set has a marker row, as long as nobody else changes the provider |
| `ProtocolTheorems.SecureStep` | `src/modules/webhooks/alchemyAddressReconciliation.service.js:54-92` | the inductive core: a pair with drift keeps its marker, and no worker with a live claim on it holds an out-of-date observation |
| `ProtocolTheorems.EmptyBacklogMeansConverged` | `src/modules/webhooks/alchemyAddressReconciliation.service.js:141-145` | when no marker is left, the provider watches exactly the pairs the active wallets want |
| `ProtocolTheorems.StaleClaimIsHarmless` | `src/modules/webhooks/alchemyAddressReconciliation.repository.js:156-197` | once a token has left its marker nothing its claimant does changes any marker, even after the marker was deleted and created again |
| `ProtocolTheorems.OrphanedForever` | `src/modules/webhooks/alchemyAddressReconciliation.repository.js:112-143` | a token that has left its marker never matches any marker again, although generations restart |
| `ProtocolTheorems.TokenFixesGeneration` | `src/modules/webhooks/alchemyAddressReconciliation.repository.js:145-197` | a marker that carries a worker's token is the marker of that worker's pair and has the generation it claimed |
| `ProtocolTheorems.LosingAMarkerOrphansTheClaim` | `src/modules/webhooks/alchemyAddressReconciliation.repository.js:71-95` | marking, reclaiming, releasing, rescheduling or deleting a marker takes its token out of use; while the token stays, generation and attempts stay |
| `ProtocolTheorems.LockCoverage` | `src/modules/wallets/wallets.repository.js:364-484` | every pair whose desired state a commit changes was locked by that transaction and is marked in the same commit, although the pair set was read before the pair locks: unclaimed, without failed attempts, under the next generation and due from that moment on |
| `ProtocolTheorems.MarkedPairsFallDue` | `src/modules/webhooks/alchemyAddressReconciliation.repository.js:84-95` | a pair marked by a commit or a sweep is due from that moment on, at every later moment of the run until a worker fails on it or it is completed, except while a lease on it runs |
| `ProtocolTheorems.BacklogFallsDue` | `src/modules/webhooks/alchemyAddressReconciliation.repository.js:112-143` | without failed attempts and running leases the whole backlog is due, which is what the worker's cycles start from |
| `ProtocolTheorems.RecheckNeverRequeues` | `src/modules/webhooks/alchemyAddressReconciliation.service.js:78-83` | among these actors the recheck before completion never finds a changed desired state |
| `ProtocolTheorems.SweepRepairs` | `src/modules/webhooks/alchemyReconciliation.service.js:32-93` | after arbitrary external drift, the commit that finishes a chain of a sweep leaves every drifting pair of that chain with a marker, with workers and writers running between its two reads and its enqueue, and the marker is due unless a worker holds a lease on it or failed on it |
| `ProtocolTheorems.RepairLasts` | `src/modules/webhooks/alchemyReconciliation.service.js:17-29` | every pair of that chain then stays covered for the rest of the run while nobody else changes the provider |
| `ProtocolTheorems.SweepMarksAreDue` | `src/modules/webhooks/alchemyReconciliation.service.js:17-29` | the commit of a sweep makes exactly the pairs it planned new work due from now on, and touches no other marker |
| `ProtocolDeadlock.DeadlockFree` | `src/modules/webhooks/alchemyAddressReconciliation.repository.js:27-95` | in every reachable state every group of actors has a member that no member of the group blocks, so waits never form a cycle |
| `ProtocolDeadlock.WaitsUpwards` | `src/modules/auth/accountDeletion.repository.js:20-45` | whatever an actor waits for comes after everything it holds in the order user row, session or wallet row, sorted pair locks, sorted marker rows |
| `ProtocolDeadlock.GroupCannotBlockItself` | `src/modules/webhooks/alchemyAddressReconciliation.repository.js:27-69` | the same for any state that keeps the invariants and sorted sweeps |
| `ProtocolInvariants.ExclusiveStep` | `src/modules/webhooks/alchemyAddressReconciliation.repository.js:35-69` | every step keeps that no two actors hold the same lock |
| `ProtocolInvariants.CommitKeepsReads` | `src/modules/wallets/wallets.repository.js:242-301` | a commit by one actor leaves what another writer read under its user row true |
| `ProtocolInvariants.MarkerHeldStep` | `src/modules/webhooks/alchemyAddressReconciliation.service.js:54-56` | every step keeps that a worker past its claim check has a marker row for its pair |
| `WalletWrites.ChangeIsMarked` | `src/modules/wallets/wallets.repository.js:97-121` | a create, update, delete or account deletion marks every pair whose desired state it changes |
| `WalletWrites.OwnRowsSuffice` | `src/modules/wallets/wallets.repository.js:97-114` | reading the user's own wallets is enough for a mutation, and the pairs it marks are among those it locks |
| `Markers.NormalizePairs` | `src/modules/webhooks/alchemyAddressReconciliation.repository.js:8-25` | exactly the distinct valid pairs, strictly sorted by chain and address; a single bad pair refuses the call |
| `Markers.MarkerTable.MarkDirty` | `src/modules/webhooks/alchemyAddressReconciliation.repository.js:71-95` | each given pair is afterwards a new piece of work: generation one, or one more than before, no claim, no attempts, its age kept, and due at exactly the moments from now on; other rows are untouched; a bad pair writes nothing |
| `Markers.MarkerTable.ClaimNext` | `src/modules/webhooks/alchemyAddressReconciliation.repository.js:112-143` | claims the due, unlocked row that has been due longest, the oldest among equals, or finds that there is none; the row stays the same work under the new token and is due again when the lease ends; other rows are untouched |
| `Markers.MarkerTable.Complete` | `src/modules/webhooks/alchemyAddressReconciliation.repository.js:156-172` | deletes the marker exactly when pair, generation and token match, the lease runs and the observation equals the desired state; no other row is touched |
| `Markers.MarkerTable.Release` | `src/modules/webhooks/alchemyAddressReconciliation.repository.js:174-183` | afterwards the claim owns no row, whatever it found; an owned marker keeps generation, age and attempts and is due at once; no other row is touched |
| `Markers.MarkerTable.Retry` | `src/modules/webhooks/alchemyAddressReconciliation.repository.js:185-197` | afterwards the claim owns no row, whatever it found; an owned marker keeps generation and age, counts one attempt and is due from its time on; no other row is touched |
| `WalletStore.WalletTables.CreateWallet` | `src/modules/wallets/wallets.repository.js:242-301` | done exactly with a non-empty list of supported chains: the row is the user's, active, at this address, exactly these chains are on, and each of them is marked for the address, due from now on; every refusal leaves all tables as they were |
| `WalletStore.WalletTables.UpdateWallet` | `src/modules/wallets/wallets.repository.js:364-484` | the address and the chains become what is asked for and nothing else of any wallet changes; when the wallet's pairs change, all it had and all it has are marked and due; NotFound exactly when the user has no such wallet, refused as invalid exactly when an active wallet is given an unsupported chain; refusals change nothing |
| `WalletStore.WalletTables.DeleteWallet` | `src/modules/wallets/wallets.repository.js:693-743` | done exactly when the user owns the wallet: it and its chain rows go, no other wallet's, and all its pairs are marked and due |
| `WalletStore.WalletTables.DeleteUser` | `src/modules/auth/accountDeletion.repository.js:31-47` | the user's wallets and their chain rows go, no one else's, and every pair of the user's active wallets is marked and due |
| `WalletStore.WalletTables.UpsertChains` | `src/modules/wallets/wallets.repository.js:346-362` | turns the listed chains of one wallet on beside those that were; no other wallet's row changes |
| `ReconciliationWorker.Worker.UnderPairLock` | `src/modules/webhooks/alchemyAddressReconciliation.service.js:54-92` | converged exactly when the marker is deleted, and then the pair is watched exactly if desired; without the lock or a first read it fails and a claim no longer current stops, both changing nothing; a current claim whose provider call fails is an error that changes no marker, and one that ends without error owns no row any more; a truthful provider within the lease converges; other pairs are untouched |
| `ReconciliationWorker.Worker.OneClaim` | `src/modules/webhooks/alchemyAddressReconciliation.service.js:108-139` | what is counted as failed keeps its row, one attempt further and due at exactly its retry time; a provider call that fails is never counted as convergence |
| `ReconciliationWorker.Worker.ProcessBatch` | `src/modules/webhooks/alchemyAddressReconciliation.service.js:95-146` | claimed = converged + retried + superseded, unless rescheduling itself throws; each convergence removes a marker and unclaimed rows stay as they are; something due makes it claim something; a batch that ends early without error or stop leaves nothing due; when every call is answered all claims converge, and an empty backlog means watched equals desired |
| `ReconciliationWorker.Worker.RunCycles` | `src/modules/webhooks/alchemyAddressReconciliation.worker.js:23-42` | with writers quiet, every call answered and every marker due, repeated cycles reach an empty backlog within as many cycles as there were markers, and then watched equals desired |
| `HoldingsProvenance.LiveCallersSeeNoStoredData` | `src/modules/holdings/holdings.service.js:667-1049` | over every run, through every cache, fallback, shared computation and late fetch, a caller that demands live data receives nothing that came from the persisted table |
| `HoldingsData.EveryPartIsGenuine` | `src/modules/holdings/holdings.service.js:159-258` | over every run, no cache, fallback, shared computation or answer alters a chain result: each part of any answer, to any caller, equals in items, total, availability and reasons a result the provider returned in an earlier step, or, if marked as stored, the payload of a row |
| `HoldingsData.LivePartsWereReturned` | `src/modules/holdings/holdings.service.js:530-561` | each part of an answer to a caller that demands live data is, exactly, what the provider returned to this process in an earlier step |
| `HoldingsData.CachedResultsAreGenuine` | `src/modules/holdings/holdings.service.js:182-258` | the chain caches too hold, unaltered, results returned earlier or rows marked as stored |
| `HoldingsData.AnswersWereComputed` | `src/modules/holdings/holdings.service.js:667-1049` | every answer a request receives was made, as it stands, by one earlier step: of the results its chains resolved to, of the last known good answer, or of loaded rows; with the wallet, parts, total and mark that belong to that |
| `HoldingsData.StaleServesAll` | `src/modules/holdings/holdings.service.js:877-895` | the stale results served when every chain failed are those of every chain with an unexpired last known good result the caller may see, and no others |
| `HoldingsFreshness.UnqualifiedAnswersAreFresh` | `src/modules/holdings/holdings.service.js:563-665` | every result in an answer without a caveat was taken by the computation that made it, from an unexpired cache entry or from the fetch it waited for: nothing kept for a failing or slow provider is presented as current |
| `HoldingsRecency.CachedResultsAreRecent` | `src/modules/holdings/holdings.service.js:182-204` | a cached chain result is the provider's result for its key and goes at most two minutes after it came, one if anything is missing in it |
| `HoldingsRecency.LastKnownGoodIsGood` | `src/modules/holdings/holdings.service.js:131-145` | a last known good chain result is not cut off by a page limit and either holds something or is certain to hold nothing; a live one goes a quarter of an hour after it came |
| `HoldingsRecency.CachedAnswersAreRecent` | `src/modules/holdings/holdings.service.js:159-180` | a cached answer was made under its key by one earlier step and goes at most two minutes later, fifteen seconds if anything is missing in it |
| `HoldingsProvenance.UnqualifiedAnswersAreWhole` | `src/modules/holdings/holdings.service.js:667-1049` | an answer not marked partial, to any caller, holds one token-complete, valued result of every chain the caller's wallet has enabled, each fetched for that wallet on that chain, and its total is their sum |
| `HoldingsProvenance.AnswersAreOfTheirWallet` | `src/modules/holdings/holdings.service.js:29-40` | wallets and chains are never mixed up: every answer to any caller is about exactly its wallet's enabled chains, and each part was fetched for that wallet on that chain, all at one address some request of the run read |
| `HoldingsAddresses.OwnAddressExactlyWhen` | `src/modules/holdings/holdings.service.js:29-40` | every answer of every run that reads these wallet records is about the address its caller read, exactly when no two records of a wallet with the same chains differ in address; the same holds of the callers that demand live data alone |
| `HoldingsAddresses.AddressChangeIsMissed` | `src/modules/holdings/holdings.service.js:695-711` | for any two records that do differ, a run in which a request that demands live data is served the other address from the cache |
| `HoldingsProvenance.StepInv` | `src/modules/holdings/holdings.service.js:46-120` | the invariant behind these: wallet-level entries are trusted by the live flag of their key, chain-level entries by their source label; every cached, fetched and pending chain result is of its own key |
| `HoldingsProvenance.StoringKeepsCachesOk` | `src/modules/holdings/holdings.service.js:159-258` | storing a sound answer keeps every cache entry sound for its key |
| `HoldingsModel.UnqualifiedAnswerIsWhole` | `src/modules/holdings/holdings.service.js:377-412` | no caveat of a chain is lost on the way to the aggregate |
| `HoldingsModel.WholeAnswerIsUnqualified` | `src/modules/holdings/holdings.service.js:377-412` | conversely, whole chain results are never marked partial |
| `HoldingsAnswers.AnswerIsMeant` | `src/modules/holdings/holdings.service.js:377-412` | beside its parts, an answer gives every enabled unsupported chain, every reason of every chain, every missing valuation and every token-level caveat as a reason |
| `HoldingsAnswers.PersistedIsMeant` | `src/modules/holdings/holdings.service.js:509-528` | an answer from the table lists exactly the loaded rows, names each as stored, and is always partial |
| `HoldingsAnswers.SumAdds` | `src/modules/holdings/holdings.service.js:377-412` | the amount of two lists of chains is the sum of theirs, that of one chain its own |
| `HoldingsAnswers.TotalMeans` | `src/modules/holdings/holdings.service.js:377-412` | an answer without items totals zero, one with items and no valued chain has no total, and any other totals its valued chains |
| `WalletRecords.EnabledAre` | `src/modules/holdings/holdings.service.js:147-153` | a wallet's chains are those its list enables, each once, and without a list the one it was created for |
| `HoldingsAnswers.CombineChains` | `src/modules/holdings/holdings.service.js:667-1049` | lists the result of each chain that has one, unaltered and under its name; if none has, the last known good answer but for its caveats, else the stale results, else nothing; the total is theirs and every fallback is marked partial |
| `HoldingsCaches.PurgingIsInvisible` | `src/modules/holdings/holdings.service.js:46-63` | deleting an expired entry on read never changes what a later read sees |
| `HoldingsCaches.TtlCache.Get` | `src/modules/holdings/holdings.service.js:65-82` | an entry is served until it expires and a persisted one never to a caller that demands live data, as the machine's lookups have it; only an expired entry goes, and no later read of any key can tell that this one took place |
| `Positions.AnswersAreOfTheirWallet` | `src/modules/positions/positions.service.js:144-295` | a request, full or list, is only ever answered about its own wallet and chains, with data fetched for one address some request read; a full request gets one reply for each supported chain, never a list-only entry and never stored data |
| `PositionsData.FullAnswersWereFetched` | `src/modules/positions/positions.service.js:144-295` | every full answer is, unaltered, what the replies of one earlier fetch for the wallet and its chains say: the part of each answered chain holds that reply's positions, nothing else is listed, every caveat is given, and it is partial exactly when a chain answered with one or not at all |
| `PositionsData.EveryPartIsGenuine` | `src/modules/positions/positions.service.js:297-374` | each part of any answer was brought in, as it is, by an earlier step: a reply, an answer the provider's cache held, or a stored row |
| `PositionsData.ListAnswersAreComplete` | `src/modules/positions/positions.service.js:310-374` | a list request that loads lists all its peek and its load found: every peeked chain, and of the others every row younger than a day; what is stored or missing is given as a reason, and it is partial exactly when some chain was not peeked whole |
| `PositionsData.FullEntriesAreRecent` | `src/modules/positions/positions.service.js:80-90` | a full cache entry ends at most a minute after the fetch that filled it, half a minute if it is partial |
| `PositionsAddresses.OwnAddressExactlyWhen` | `src/modules/positions/positions.service.js:50-56` | positions too are always about the address the caller read exactly when no two records of a wallet with the same chains differ in address |
| `PositionsAddresses.AddressChangeIsMissed` | `src/modules/positions/positions.service.js:144-157` | for any two records that do differ, a run in which a full request is served the other address from the cache |
| `Positions.NothingServedIsADayOld` | `src/modules/positions/positions.service.js:297-374` | nothing served from the persisted table is 24 hours old or more at the step that serves it |
| `Positions.ListNeverOverwritesFull` | `src/modules/positions/positions.service.js:61-90` | list mode never replaces a live entry that is still in force |
| `Positions.UnqualifiedFullResult` | `src/modules/positions/positions.service.js:144-295` | a full result is unqualified exactly when every chain answered, without a reason for anything missing, and then holds for each chain, in order, a part with that chain's positions |
| `Positions.FetchChains` | `src/modules/positions/positions.service.js:144-295` | the sequential chain loop: a result exactly when some chain answered, with the positions of each answered chain under its name, every caveat, and the partial mark exactly when a chain has one; the unsupported error exactly when no chain answered and some was not configured |
| `PortfolioSnapshot.SnapshotsAreSound` | `src/modules/performance/performance.service.js:157-182` | every snapshot ever written comes from one whole live result of every enabled chain, each part of which the provider returned to this process, and one full, unqualified, unstored positions result of every supported chain, which is what the replies of one fetch said; its total is their sum; the two are of the same chains exactly when the two records of the wallet read for them agree |
| `SnapshotRuns.SnapshotsWereComputed` | `src/modules/performance/performance.service.js:157-182` | every snapshot was written by one capture of its wallet, at that step's time, and adds the two unqualified answers an earlier step of the run had put into a summary of that wallet: the very computation the capture waited for, or one that ended less than ten seconds before |
| `PortfolioSnapshot.SummaryAddsOneSetOfChains` | `src/modules/portfolioSummary/portfolioSummary.service.js:133-146` | the unqualified answers a summary adds are of the same chains exactly when the two records read for them agree |
| `SnapshotRuns.DifferentChainsWereChanged` | `src/modules/portfolioSummary/portfolioSummary.service.js:133-146` | when they are of different chains, an earlier step changed the wallet's chains while the computation had read one row and not yet the other |
| `SnapshotInputs.SameChainsExactlyWhen` | `src/modules/portfolioSummary/portfolioSummary.service.js:133-146` | every run that reads these wallet records puts holdings and positions of one set of chains into each snapshot, exactly when two records of one wallet, the first with supported chains only and the second with some, always agree on the supported chains |
| `SnapshotInputs.SameAddressExactlyWhen` | `src/modules/portfolioSummary/portfolioSummary.service.js:133-146` | and of one address exactly when two such records always agree on the address |
| `SnapshotInputs.ChangedChainsAreAdded` | `src/modules/portfolioSummary/portfolioSummary.service.js:133-146` | for any two records that disagree, a run from an empty start whose answers are of different chains and whose snapshot is written from them |
| `PortfolioSnapshot.UnqualifiedSummaryAdds` | `src/modules/portfolioSummary/portfolioSummary.service.js:109-286` | a summary not marked partial adds two complete totals |
| `PortfolioSnapshot.PartialExactlyWhen` | `src/modules/portfolioSummary/portfolioSummary.service.js:15-27` | a full summary is marked partial exactly when one of its answers is, or positions are missing, or something is held or listed whose value is unknown |
| `PortfolioSnapshot.Summarize` | `src/modules/portfolioSummary/portfolioSummary.service.js:29-58` | the positions total is the sum of the valued positions, null when described ones have no value, zero when there are none |
| `PortfolioSnapshot.TallyAdds` | `src/modules/portfolioSummary/portfolioSummary.service.js:29-58` | the tally of two lists adds their amounts and sees what either has; that of one position is its own |
| `PortfolioSnapshot.SnapshotJob.CaptureAll` | `src/modules/performance/performance.service.js:184-224` | snapshots are added for exactly the wallets with a complete summary whose insert works, whatever happens to the others, and each wallet is counted once as inserted, skipped or failed |
| `PortfolioSnapshot.SnapshotJob.CaptureOne` | `src/modules/performance/performance.service.js:157-182` | skipped exactly for an incomplete summary, failed exactly when the summary or the insert fails; what is inserted is the summary's total, holdings and positions at that time, and otherwise nothing is |
| `ReauthTheorems.DeletionProvenance` | `src/modules/auth/accountDeletion.repository.js:14-63` | every committed account deletion traces to a challenge of the same user and session, proved by a method linked at the grant and at the deletion, each step before the previous one expired, with the session unrevoked throughout |
| `ReauthProofs.DeletionWasProved` | `src/modules/auth/accountDeletionReauth.service.js:90-204` | every committed account deletion goes back to the step that accepted its proof after reading the challenge, and for Google to the callback that verified it with the identity then linked, all after the challenge was issued |
| `ReauthTheorems.GrantProvenance` | `src/modules/auth/accountDeletionReauth.repository.js:191-247` | a grant's challenge was issued earlier to the same user and session by the same method, was unexpired, its proof was of the current password or the linked identity, and for Google an earlier step had redeemed its code |
| `ReauthTheorems.OneGrantPerChallenge` | `src/modules/auth/accountDeletionReauth.repository.js:228-231` | one challenge yields at most one grant over any run |
| `ReauthTheorems.OneDeletionPerGrant` | `src/modules/auth/accountDeletionReauth.repository.js:249-294` | one grant yields at most one deletion over any run |
| `ReauthTheorems.OneOpenPerSession` | `src/modules/auth/accountDeletionReauth.repository.js:82-97` | a session's open challenges and open grants never exceed one together |
| `ReauthTheorems.GoogleStatusAdvances` | `src/db/migrations/027_google_deletion_oauth.sql:10-36` | the Google status only moves pending, exchanging, verified or failed, or pending to failed, and the PKCE verifier is stored exactly while the challenge is pending or exchanging |
| `ReauthTheorems.CodeRedeemedOnce` | `src/modules/auth/accountDeletionReauth.service.js:164-204` | an authorization code is exchanged at most once per challenge |
| `ReauthTheorems.CallbackVerifier` | `src/modules/auth/accountDeletionReauth.repository.js:130-145` | the verifier sent with a code is the one drawn when that challenge was issued |
| `ReauthTheorems.NoGrantAfterFiveFailures` | `src/modules/auth/accountDeletionReauth.repository.js:182-206` | a grant on a challenge has fewer than five recorded failures behind it: fewer than five steps before it recorded a failed proof against that challenge while it was open and in time |
| `ReauthTheorems.AttemptsAreFailures` | `src/modules/auth/accountDeletionReauth.repository.js:182-189` | over any run the stored attempts of a challenge are the number of failed proofs recorded against it while it was open and in time, up to five |
| `Reauth.ReauthTables.RecordFailedProof` | `src/modules/auth/accountDeletionReauth.repository.js:182-189` | raises the attempts of the caller's open, unexpired challenge below five by exactly one and changes nothing else of any row; otherwise nothing happens |
| `ReauthInvariants.StepDb` | `src/db/migrations/026_account_deletion_reauth.sql:1-48` | every transaction keeps the checks, foreign keys and one-open unique indexes of both tables, without relying on them |
| `ReauthInvariants.IssueOpens` | `src/modules/auth/accountDeletionReauth.repository.js:63-113` | issuing leaves nothing else of the session open |
| `Reauth.ReauthTables.IssueChallenge` | `src/modules/auth/accountDeletionReauth.repository.js:63-113` | issues exactly with a live session, a linked method and fewer than ten challenges within the hour; the new challenge, with the material drawn for it, is then all that is open in its session; what it supersedes is used up, other rows of the user stand unless they are out of date, other users' rows stand, and a refusal leaves every table as it was |
| `Reauth.ReauthTables.ClaimCallback` | `src/modules/auth/accountDeletionReauth.repository.js:132-145` | claims the pending, unused, unexpired Google challenge of a live session with this state, which is then being exchanged and otherwise as it was, or finds that there is none |
| `Reauth.ReauthTables.FinishCallback` | `src/modules/auth/accountDeletionReauth.repository.js:156-180` | verifies exactly for the linked identity on an exchanging, unexpired challenge with this nonce; it records the subject, erases the verifier and touches nothing else; a refusal changes nothing |
| `Reauth.ReauthTables.CompleteReauth` | `src/modules/auth/accountDeletionReauth.repository.js:191-247` | grants exactly for an unused, unexpired challenge of the caller with fewer than five failures whose proof is of the current password, or of the linked identity with the challenge's nonce and, for Google, its verified callback; the challenge is used up and the new grant is the only one open in its session, other sessions' grants stand; a refusal changes nothing |
| `Reauth.ReauthTables.DeleteAccount` | `src/modules/auth/accountDeletion.repository.js:14-51` | deletes exactly with an open, unexpired grant of this user and session whose method is still linked; no row of the user is left and nobody else's changes; a refusal changes nothing |
| `AuthTheorems.GuessBound` | `src/modules/auth/challenge.repository.js:23-83` | in any half-open hour at most 30 wrong codes are evaluated per user and purpose |
| `AuthTheorems.AccountedStep` | `src/modules/auth/challenge.repository.js:25-41` | the account behind it: at most one misjudged code predates the hour, at most five were issued inside, five wrong guesses each |
| `AuthProtocol.IssueOpens` | `src/modules/auth/challenge.repository.js:34-41` | issuing a code leaves at most one open per user and purpose |
| `AuthTheorems.RefreshAcceptedOnce` | `src/modules/auth/session.repository.js:44-95` | over any run each refresh token is accepted at most once |
| `AuthTheorems.OneAcceptableToken` | `src/modules/auth/session.repository.js:51-66` | at any moment a session accepts at most one refresh token and a token opens at most one session |
| `AuthTheorems.RevokedForever` | `src/modules/auth/session.repository.js:105-110` | a session that is revoked never accepts anything again |
| `AuthTheorems.LivePasswordSessionsAreCurrent` | `src/modules/auth/session.repository.js:23-42` | a session that some step opened with a password stays unrevoked only while that password's hash is its user's, however logins race resets |
| `AuthTheorems.LoginsAreProved` | `src/modules/auth/session.repository.js:23-42` | a password login opens a session only after an earlier step read the user's hash and a later one found the password right against it |
| `AuthTheorems.ResetRevokesEverything` | `src/modules/auth/challenge.repository.js:70-79` | the step that resets a password gives the user the new hash, ends every session and rejects every older sessionless token of that user for good, and touches no other user |
| `AuthTheorems.LegacyLogoutExactlyWhen` | `src/middlewares/authenticate.js:22-30` | a sessionless token that was logged out is rejected at every later moment exactly when its whole second is not after the instant of its logout |
| `AuthTheorems.LogoutOfAheadTokenIsLost` | `src/modules/auth/session.repository.js:112-120` | for any user and any token stamped ahead of that second, a run whose logout leaves it accepted |
| `Auth.AuthTables.IssueChallenge` | `src/modules/auth/challenge.repository.js:23-44` | issues exactly when the user has fewer than five codes of the last hour and no open one of the last minute; the new code is then the only open one of its user and purpose, usable for ten minutes; older ones are used up and otherwise as they were, all other rows stand, and nothing changes otherwise |
| `Auth.AuthTables.ConsumeChallenge` | `src/modules/auth/challenge.repository.js:50-83` | compares the guess with the newest usable code; a wrong one raises that code's attempts by one and nothing else; a right one uses the code up and verifies the address, or sets the new hash, revokes all of the user's sessions and rejects older sessionless tokens, and no other user is touched; without a usable code nothing changes |
| `Auth.AuthTables.RotateRefreshToken` | `src/modules/auth/session.repository.js:44-95` | replaces the credential of the one session that accepts the token; nothing changes when none does or signing fails |
| `Auth.AuthTables.CreateSessionForPassword` | `src/modules/auth/session.repository.js:23-42` | creates a session exactly when the stored hash is still the one that was checked; it accepts exactly the token drawn for it until that expires, and no other session is touched |
| `Auth.AuthTables.RevokeLegacyAccess` | `src/modules/auth/session.repository.js:112-120` | afterwards the token is rejected exactly when it is stamped no later than the current second or an earlier revocation covers it, and the instant moves only when needed |
| `OutboxProtocol.DeliveredAbsorbs` | `src/modules/notifications/notifications.repository.js:50-90` | in every interleaving a delivered row never changes, and no reservation succeeds after it |
| `OutboxProtocol.RowsAreReferable` | `src/db/migrations/004_notification_tables_backfill.sql:38-39` | in every reachable state the event and the device of every delivery row exist |
| `OutboxProtocol.LatePushWasReservedEarlier` | `src/modules/notifications/notifications.service.js:89-104` | a push sent after a delivery was recorded was reserved before it was |
| `OutboxTheorems.SentMeansNothingOwed` | `src/modules/notifications/notifications.service.js:193-276` | with any number of workers, crashes and stale reclaims: a worker that marks its job sent had listed the owner's active devices, and since then each of them had a moment at which its row was delivered or refused for good |
| `Outbox.OutcomeMeans` | `src/modules/notifications/notifications.service.js:104-174` | a row says delivered exactly after an accepted push and is to be tried again exactly after a transient or unconfirmed one |
| `Outbox.OutboxTables.ProcessBatch` | `src/modules/notifications/notifications.service.js:278-358` | without overlap or crash each claimed job ends terminal or pending with attempts to spare, so none is claimed more than the maximum; claimed = sent + retried + failed |
| `Outbox.OutboxTables.RunBatches` | `src/modules/notifications/notifications.service.js:278-358` | over any sequence of such batches a job is claimed at most the maximum number of times, each claim is one attempt, and a terminal job is never claimed again |
| `Outbox.OutboxTables.ProcessJob` | `src/modules/notifications/notifications.service.js:177-276` | throws exactly when a statement of its own fails or a listed device fails transiently or unconfirmed, leaving the job row alone; a sent job has every device active at listing delivered or refused for good, as its push ended, unless nothing was owed to it before; the delivered count is the rows that turned delivered, and delivered + failed + skipped is the number of devices |
| `Outbox.OutboxTables.RunJob` | `src/modules/notifications/notifications.service.js:307-349` | a job that threw is pending again after thirty seconds for each attempt, and failed for good only at the maximum or without its event; a sent one has settled devices; other jobs stand |
| `Outbox.OutboxTables.Deliver` | `src/modules/notifications/notifications.service.js:73-175` | a delivered row stays; otherwise the row is delivered exactly when the push was accepted and retryable exactly when it failed transiently or was not confirmed, and the flags say the same; other rows are untouched |
| `Outbox.OutboxTables.ClaimJobs` | `src/modules/notifications/notifications.repository.js:254-307` | claims due jobs, each once and up to the limit: pending ones whose time has come and processing ones locked too long; each is one attempt further, locked now and otherwise as it was; a due job is left only when the batch is full, and none left comes before one taken |
| `Outbox.OutboxTables.RecordInvalidToken` | `src/modules/notifications/notifications.repository.js:109-146` | records the refusal and deactivates the device only if it is still the one that was listed |
| `TrackerProtocol.CursorNeverMovesBack` | `src/modules/ethereum/ethereum.tracker.js:511-707` | with a stored cursor and no configured start block the cursor never moves back, over any polls, crashes and failed batches |
| `TrackerProtocol.NothingIsSkipped` | `src/modules/ethereum/ethereum.tracker.js:566-705` | every block the cursor has passed was scanned by a batch that holds exactly what an earlier step fetched for its blocks, and each of its events has a row with its columns, those of deleted wallets aside |
| `TrackerProtocol.EachEventOnce` | `src/db/migrations/003_native_eth_transfer_support.sql:27-35` | two rows never agree in wallet, transaction, kind, direction, log index and token id, an absent token id counting as empty and an absent log index as no other |
| `WalletEvents.IndexIsByColumns` | `src/db/migrations/003_native_eth_transfer_support.sql:27-35` | the unique index tells apart exactly the events that differ in one of these columns |
| `TrackerProtocol.OneJobAsDecided` | `src/modules/events/events.repository.js:182-217` | a stored event has one outbox job exactly when its first insertion decided to enqueue, and never a second |
| `TrackerProtocol.FirstInsertionDecides` | `src/modules/events/events.repository.js:113-225` | every row was put there, as it is, by one step that found no row with its columns, and it has an outbox job exactly when that step's decision asked for one |
| `TrackerProtocol.ConfiguredStartMovesTheCursorBack` | `src/modules/ethereum/ethereum.tracker.js:257-264` | for every configuration with a start block, a run with a tracked wallet in which the stored cursor moves back |
| `TrackerProtocol.MonotoneExactlyWhen` | `src/modules/ethereum/ethereum.tracker.js:257-264` | the cursor never moves back in any run that starts with one, exactly when no start block is configured |
| `Tracker.EthereumTracker.PollOnce` | `src/modules/ethereum/ethereum.tracker.js:511-707` | one poll with two independent block-number replies: without wallets or new blocks nothing; else exactly the batches before the first that fails are committed, the cursor ends at the last block of the last of them, and everything from the start to there was scanned and stored |
| `Tracker.PollMovesForward` | `src/modules/ethereum/ethereum.tracker.js:511-707` | without a configured start block a poll never lowers the cursor, and moves it exactly when there are wallets to track, a confirmed block past it and a first batch that succeeds |
| `Tracker.FirstCursorExactlyWhen` | `src/modules/ethereum/ethereum.tracker.js:257-287` | without a stored cursor and a start block, a poll stores one exactly when the block number asked for second is below the first, a block of the first is confirmed, and the first batch succeeds |
| `Tracker.PollLowersCursorExactlyWhen` | `src/modules/ethereum/ethereum.tracker.js:257-264` | with a start block and a first batch that succeeds, some save of a poll is below the stored cursor exactly when the end of that first batch, the lesser of start plus batch size and the safe block, is |
| `TransferLogs.BatchLogs` | `src/modules/ethereum/ethereum.tracker.js:569-585` | the decoded logs are sorted, one per transaction and index, and cover every log of the filters and every supported log of the receipts |
| `Tracker.EventsExactly` | `src/modules/ethereum/ethereum.tracker.js:569-664` | when the answers agree about each log, a batch inserts exactly the events that some log of its filters or supported log of its receipts decodes to, and the native ones |
| `TrackerReplay.PollReplayed` | `src/modules/ethereum/ethereum.tracker.js:511-707` | whatever a poll does to the tables and the cursor, the ingestion machine can do from any world of a run with the same tables and cursor |
| `TrackerReplay.RunPolls` | `src/modules/ethereum/ethereum.tracker.js:177-211` | any number of polls one after the other is one run of the ingestion machine, so its results hold of them |
| `TrackerReplay.PollsScanEverything` | `src/modules/ethereum/ethereum.tracker.js:566-705` | after such polls, with a stored cursor and no configured start block, the cursor is not lower and every block it passed was scanned by a committed batch each of whose events has a row with its columns |
| `TransferLogs.FetchTransferLogs` | `src/modules/ethereum/ethereum.tracker.js:289-347` | the logs of the filters sorted by block and index, one for each transaction and index: the last of its duplicates |
| `TransferLogs.BackfillLogs` | `src/modules/ethereum/ethereum.tracker.js:412-509` | recovers each supported receipt log not known yet, once |
| `WalletEvents.EventStore.InsertWalletEvents` | `src/modules/events/events.repository.js:85-302` | exactly the events before the first failing one are inserted, one after the other, and rows and decisions from before stay; on success every event has a row with its wallet, transaction, kind, direction, log index and token id, and events that differ in one of these have different rows |
| `WalletEvents.EventStore.InsertOne` | `src/modules/events/events.repository.js:113-225` | inserts exactly when no row agrees with the event in these columns; the new row is the event as it is, with a job exactly when the decision asks for one; a failing statement changes nothing |
| `ActivityHistory.FragmentsExactlyWhen` | `src/modules/events/events.repository.js:354-390` | every transaction item holds all stored events of its wallet, chain and hash exactly when no mint on the page is split from its transaction |
| `ActivityHistory.LoneMintIsFragment` | `src/modules/events/eventActivityGrouper.js:223-247` | a mint whose transaction is incomplete on the page does become a transaction item that lacks stored events |
| `ActivityHistory.SplitMintExample` | `src/modules/events/eventActivityGrouper.js:106-115` | a concrete page for which that happens |
| `ActivityHistory.ListWalletEvents` | `src/modules/events/events.service.js:10-36` | the items of the page's groups in the order the groups first appear; their source ids are a permutation of the page's ids, legs partition each transaction, hasMore is exact, and items are whole exactly when no mint is split |
| `ActivityHistory.GroupWalletEvents` | `src/modules/events/eventActivityGrouper.js:223-248` | the groups' items in the order the groups first appear; their source ids are a permutation of the page's ids, and transaction items are exactly the classified groups |
| `ActivityHistory.FindIncompleteKeys` | `src/modules/events/events.repository.js:354-390` | exactly the page's transactions of which more events are stored than the page shows |
| `ActivityHistory.NoNftNoActivity` | `src/modules/events/events.service.js:29-31` | without an NFT on the page nothing is classified, so the count query may be skipped |
| `ActivityHistory.ItemLegsPartition` | `src/modules/events/eventActivityGrouper.js:214-219` | sent and received legs partition a transaction item's sources, each with its direction |
| `ActivityItems.ItemsAreMeant` | `src/modules/events/eventActivityGrouper.js:196-248` | every transaction item stands for the page's events of one complete transaction, or for one mint of a transaction kept apart; its activity is what these events are, its sources are their ids and its value is that of its fungible transfers |
| `ActivityItems.ActivitiesAreShown` | `src/modules/events/eventActivityGrouper.js:223-248` | conversely every complete transaction on the page that is a mint, purchase or sale is shown as one item of that activity with exactly its events |
| `ActivityItems.PaymentsAdd` | `src/modules/events/eventActivityGrouper.js:168-187` | payments that are all priced are worth the sum of their prices, and payments that are not have no price |
| `ActivityItems.OrderMeans` | `src/modules/events/eventActivityGrouper.js:223-239` | the groups of a page are listed in the order in which they first appear on it, each once |
| `ActivityItems.IncompleteMeans` | `src/modules/events/events.repository.js:354-390` | a transaction counts as incomplete exactly when some stored event of it is not on the page |
| `ActivityGrouping.ClassifyMeans` | `src/modules/events/eventActivityGrouper.js:51-147` | a group is classified as mint, purchase or sale exactly when its events are of that kind, event by event, and its payments are all its fungible transfers |
| `Pagination.ListWatchedAddresses` | `src/modules/webhooks/alchemyAddressSync.service.js:166-299` | at most 100 requests, the refused one included; a returned list is the sorted union of all pages, as many as every page reported, with no cursor left; every refusal has its cause in a reply |
| `Pagination.FetchAllBalances` | `src/modules/holdings/holdings.provider.js:592-707` | at most two requests for each page up to the page limit, retries included, and within the item limit; available exactly when the balances are all of the provider's pages with no page key left; every other result has its cause |
| `Pagination.FetchAllPositions` | `src/modules/positions/positions.provider.js:325-388` | at most as many requests as the page limit and within the item limits; not partial exactly when data and included are all pages with no link left; no link is followed twice; every partial result and every throw has its cause |

## Left out

- Retry delay arithmetic and error-code mapping of the reconciliation worker: any delay is allowed.
- Connection-pool exhaustion, SQL isolation beyond atomic statements and row locks that re-check after waiting, and collisions of hashed lock keys.
- Row locks a cascade takes on wallets, sessions and grants in an account deletion: the lock order has the user row, the session or wallet row, pair locks and marker rows.
- Addresses are numbers: fixed-width lower-case hexadecimal text sorts like its value, and trimming and case folding happen before the model.
- Reason lists keep repeats: the source removes duplicates before showing them, and only emptiness and membership matter here.
- Money is integer cents or an abstract value: floating-point formatting, rounding and the order positions are displayed in are not modelled.
- Holdings and positions provider calls are arbitrary replies: token pricing, suspicion rules, cooldowns and request queues are not modelled.
- The positions provider's own caches: a peeked chain answer is any answer this process fetched for that address and chain.
- Passwords, codes, tokens, digests and signatures are opaque values; verification of provider tokens is an arbitrary accept or reject.
- Identity linking and sign-in beyond creating a session, device registration, alert settings and read markers.
- The configured refresh-token lifetime is fixed at its default of thirty days, and code lifetimes at ten minutes.
- AuthTheorems.GuessBound: commits are ordered by one clock, although the source's statements read their transaction's start time.
- Outbox.OutboxTables.ProcessBatch: stated for batches that neither overlap nor crash, since job status updates match the job by id alone and a reclaimed stale job can be processed twice.
- OutboxProtocol.DeliveredAbsorbs: claim order, batch limits and the five-minute stale threshold are arbitrary in the machine, which only makes more interleavings possible.
- Delivery rows are keyed by event and device; the notification id they also carry is determined by the event.
- TrackerProtocol.NothingIsSkipped: one tracker process at a time; a crash ends its poll.
- What one log or native transfer decodes to, receipts of untracked addresses, metadata caches and request retries of the tracker: each log decodes to arbitrary events or throws, and native transfers yield arbitrary events.
- The optional deletion of the stored cursor when the tracker starts: a tracker starts with any cursor.
- ActivityHistory.ListWalletEvents: events are added but not removed between the page query and the count query; a wallet deleted in between is not covered.
- Amount parsing and zero-address patterns of the grouping are boolean fields of an event.
- Webhook payload handling, HTTP routing, schemas, logging and rate-limit middleware.
