# Verified model of the v2 collection control plane

A Dafny model of the collection control plane of a market-intelligence service and of the durable stages
behind it, with proofs of what they promise. `dafny verify dfyconfig.toml` checks everything.

Four state machines:

1. **Paging with a durable continuation.** `Windows`, `Continuation`, `Pages`, `Keyset`, `Counted`, `Finnhub`,
   `SecEdgar` and `SecPlan` model how a frozen window is resolved, how provider answers are cut into pages, and how progress is
   encoded. `Downstream` models what a page leaves in the store. `ControlPlane` is the transition system of one target:
   every database transaction is one step, and a worker may crash between any two. `PlaneInvariant`, `PlaneSteps`,
   `PlaneCommit`, `PlaneTheorems`, `PlaneOutcomes`, `PlaneGuards` and `PlaneProgress` prove what holds over every run, `CollectionWorker`
   is the imperative worker proved to be such a run, `EndToEnd` states what SUCCEEDED means for the rows of each provider,
   and `Completion` that fault-free dispatches get there. `ShortCik`, `OtherAccount` (with `Standstill`) and `StaleReload` are
   the cases in which they do not, or not at once.
2. **Evidence handoff.** `EvidencePolicy` holds the policy twice, as the Python checks and as the database triggers.
   `Handoff`, `HandoffSafety`, `HandoffTheorems`, `HandoffLinks` and `HandoffProgress` are the transition system over projections, links, evidence and
   content under any interleaving; `HandoffWorker` is the batch worker.
3. **Event candidates.** `Matching` and `Candidates` relate ranked matching to the unique cluster key and aggregates to
   active associations; `CandidateMemory` what candidates learn; `CandidateService` is the service; `AmbiguousRuns` exhibits the one fallback.
4. **Due scanning and intents.** `DueScan` and `Intents`.

Hashes (SHA-256, canonical projection hashes, cluster keys) are injective constructors. The factual payload validator is
an arbitrary classifier. A run without faults is one in which every request is answered, except that requests after the
first of a run may find its deadline passed; the surroundings choose the clock, the deadlines and the row of every reload.
Ghost fields `trail`, `chain`, `closed`, `log` and the run fields `cap` and `pageCap` are history: no step
reads them to decide anything.

Where the code differs from what one might expect, the code is followed and the exact condition is proved:

- The continuation trigger compares SEC file names with the unpadded CIK. It is part of the page transaction here: the
  page is refused, and the run retried, exactly when its next state names a history file and the stored CIK has fewer
  than ten digits (`PlaneGuards.GuardExact`, `PlaneProgress.AnswerCommits`); such a target never collects anything
  (`ShortCik.NeverCollects`).
- The observation trigger refuses an item that another account of the same source stored first. The page is refused in
  every run, and the traversal stands still (`Downstream.PersistAccepts`, `OtherAccount.NeverAdvances`).
- The link trigger fires on every update of a link row. A claimed link whose projection is no longer READY cannot be
  blocked, given back or recovered, and a batch that tries ends without a report (`HandoffTheorems.LeavesProcessing`,
  `HandoffWorker.EvidenceProjectionHandoffWorker.ProcessBatch`).
- Python adopts an evidence row under its plain identity whatever its stored hash; the trigger does not
  (`HandoffTheorems.TriggersAgainstPython`, `EvidencePolicy.PlainAdoptionRefused`).
- Creating an ambiguous candidate for an item that already had one returns the old row (`Candidates.CreationExact`,
  `AmbiguousRuns.AmbiguousAgain`).
- A retry slot can be claimed again once its marker has expired (`DueScan.RetrySlotAgain`).
- A monthly window is refused when it would start before year 1 (`Windows.ResolvedWindowAccepted`, `Windows.MonthlyWindowBeforeYearOne`).
- Between pages the worker reloads a cursor row without naming its version. The next page is committed only if the
  reload hit the current row (`PlaneProgress.AnswerCommits`), there are runs in which it does not (`StaleReload.StaleRun`),
  and the traversal is still driven to its end whatever every reload hits (`PlaneProgress.Drains`).

## Model

| member | source | states |
|---|---|---|
| PlaneTheorems.Safety | src/market_intelligence/collection/control_plane.py:413-848 | Every sequence of dispatches, crashes, retries, lock losses, budget stops, resumed runs, revisions, pauses and abandons keeps the whole invariant: one running run, frozen windows, bound continuations, chain positions, budgets, counters, request log |
| PlaneTheorems.CommittedPrefix | src/market_intelligence/collection/control_plane.py:568-701 | In every reachable state with a pending continuation the committed pages are a prefix, without repetition, of the adapter's page chain for the frozen window; the continuation is the next request; every committed row is stored or audited |
| PlaneTheorems.SucceededCovers | src/market_intelligence/collection/control_plane.py:703-813 | A run that is SUCCEEDED has a complete, duplicate-free chain for its own frozen configuration, not cut short, all of whose facts are raw items and all of whose rejections are audited, in every later state too |
| PlaneTheorems.FrozenTerms | src/market_intelligence/collection/control_plane.py:499-528 | All requests of one traversal, over every failed, partial and resumed run, carry one frozen configuration, its window included, and one batch limit, whatever the clock says |
| PlaneTheorems.ContinuationBinding | src/market_intelligence/collection/control_plane.py:534-554 | A continuation is pending iff a run is bound to it; that run is not SUCCEEDED, its window and configuration hash are the continuation's, and the lineage is the target's current one |
| PlaneTheorems.Budgets | src/market_intelligence/collection/control_plane.py:581-607 | Transport requests sent for a run over all retries and crashes equal its counter and never exceed the max_requests_per_run the run started under; committed pages never exceed requests nor the max_pages_per_run it started under; while it runs both are the target's; fetched = new + duplicates; new is the number of raw items the run inserted |
| PlaneTheorems.RetriesBounded | src/market_intelligence/collection/control_plane.py:850-888 | A run is given back for another try at most three times over all its dispatches and crashes, and its retry counter says how often |
| PlaneTheorems.NeverBackward | src/market_intelligence/collection/cursors.py:42-65 | Over every run the checkpoint and watermark of every cursor row never move backward and are never erased, terminal runs never change, and nothing stored or audited is lost |
| PlaneCommit.RunningMaxExact | src/market_intelligence/providers/breadth.py:180-197 | The adapter's next cursor is the greatest of the cursor it started from and the (timestamp, identity) keys of all facts of the page: at or above each of them, one of them, and absent only if there is none |
| PlaneTheorems.CheckpointExact | src/market_intelligence/collection/control_plane.py:740-813 | In every reachable state an answer that commits a page leaves in the current cursor row the greatest of the previous checkpoint and the keys of that page's facts, with that key's timestamp as watermark, and touches no other row; an answer that commits none leaves every cursor row alone |
| PlaneOutcomes.WindowFrozen | src/market_intelligence/collection/control_plane.py:499-554 | A dispatch works in the window its run already froze, else in the one its pending continuation was opened with, else in the one resolved from the run's start and the stored watermark; the request configuration is the loaded one with exactly that window, and its hash is frozen on the run |
| PlaneOutcomes.WindowsBounded | src/market_intelligence/providers/windows.py:36-44 | Every window ever frozen on a run runs forward and spans at most 31 days, 7 for RTO data, or 12 calendar months |
| PlaneOutcomes.AnswerOutcome | src/market_intelligence/collection/control_plane.py:653-813 | An answer becomes its page as a whole (every fact stored, exactly the refusals audited, counters, continuation and run status as the page says, the next request or the end of the dispatch at the smaller budget) or fails its run and writes nothing else |
| PlaneOutcomes.CommitGuarded | src/market_intelligence/collection/control_plane.py:703-760 | Whatever the session and the answer, a page is committed only under the revision the session was loaded with, onto the checkpoint it last read, never onto an older key, and never with an item of another account |
| PlaneOutcomes.ResolveGuarded | src/market_intelligence/collection/control_plane.py:467-554 | Whatever the state, resolving never replaces a frozen window or hash, and takes up a pending continuation unchanged, only if it was opened for this target, revision, configuration and window; the row it writes is one the trigger lets through |
| PlaneOutcomes.AnswerGuarded | src/market_intelligence/collection/control_plane.py:653-690 | Whatever the state, a session goes on only with a continuation that differs from the last and decodes under its own configuration, window and lineage |
| PlaneOutcomes.ChargeOutcome | src/market_intelligence/collection/control_plane.py:579-607 | The head of a page sends one request with the frozen configuration and state iff the target is active and both budgets have room; otherwise the run ends PARTIAL, or FAILED when the target is not active |
| PlaneOutcomes.InterruptOutcome | src/market_intelligence/collection/control_plane.py:850-915 | A failed request is tried again iff it is retryable and fewer than three retries were used, else the run is FAILED; a lost lock fails it; a crash writes nothing; recovery fails exactly the runs left running |
| PlaneOutcomes.ReviseOutcome | src/market_intelligence/collection/target_repository.py:146-260 | A revision is accepted iff no run is in flight, no cursor row holds a continuation, the revision is the next one, identity, operation and mode stay, the status move is one of the operator's, and the configuration is valid; it changes the target row only |
| PlaneOutcomes.BeginOutcome | src/market_intelligence/collection/control_plane.py:413-465 | A dispatch begins iff no worker holds the lock and the target was active when loaded; it adopts the run in flight or, iff there is none, opens a fresh one under the budgets in force, with the current cursor row as snapshot |
| PlaneOutcomes.AbandonOutcome | src/market_intelligence/collection/target_repository.py:395-480 | Abandoning works exactly on a paused target without a run in flight: every continuation is cleared, every checkpoint and watermark stays, nothing else changes |
| PlaneCommit.FetchAnswers | src/market_intelligence/providers/breadth.py:142-206 | In a bound session the adapter answers iff the provider does and the next state is in the codec's domain; its continuation then differs from the request's in the state alone |
| PlaneCommit.CommitKeeps | src/market_intelligence/collection/control_plane.py:703-813 | The page transaction keeps every part of the invariant, for any page, final or not |
| PlaneCommit.AnswerKeeps | src/market_intelligence/collection/control_plane.py:653-701 | A page answer, committed or failed, leaves the invariant and the worker's session in step with the database |
| PlaneSteps.ResolveBinds | src/market_intelligence/collection/control_plane.py:499-554 | Resolving a run freezes a valid window, the saved one if a continuation is pending, and binds a continuation that decodes under the current lineage |
| PlaneSteps.ResolveKeeps | src/market_intelligence/collection/control_plane.py:467-554 | Freezing and binding keep the invariant, in a new run as in an adopted one |
| PlaneSteps.ChargeKeeps | src/market_intelligence/collection/control_plane.py:581-607 | The budget transaction keeps the invariant, whether it charges a request or ends the run as partial |
| PlaneSteps.ReviseKeeps | src/market_intelligence/collection/target_repository.py:184-213 | A revision, refused while a run is in flight or a continuation is pending, keeps the invariant |
| PlaneSteps.PauseKeeps | src/market_intelligence/collection/target_repository.py:353-393 | Pausing for abandonment keeps the revision and with it the continuation's lineage |
| PlaneSteps.AbandonKeeps | src/market_intelligence/collection/target_repository.py:395-480 | Abandoning drops recovery state only and keeps the invariant |
| PlaneSteps.FailKeeps | src/market_intelligence/collection/control_plane.py:850-915 | Error and lock-loss handling keep the invariant from every point of a dispatch |
| PlaneSteps.RecoverKeeps | src/market_intelligence/collection/control_plane.py:977-1019 | Stale recovery keeps the invariant |
| PlaneProgress.AnswerCommits | src/market_intelligence/collection/control_plane.py:653-690 | A page with distinct identities is committed iff its next state is in the codec's domain and differs from the request's, the cursor row reloaded last is the current one, none of its items was first stored under another account of the source, and the next state names no SEC history file under a CIK that needs padding; otherwise nothing is written and the run fails, with a retry iff a trigger refused |
| PlaneProgress.StaleFails | src/market_intelligence/collection/control_plane.py:692-699 | A session that reloaded another version's row fails its next page without a write, whatever the provider answers |
| StaleReload.SecondPageFails | src/market_intelligence/collection/control_plane.py:692-699 | Beside a row of an earlier version without checkpoint, a reload that hits it lets the first page through and fails the second |
| StaleReload.StaleRun | src/market_intelligence/collection/control_plane.py:692-699 | For every fixed-window target whose first page goes on, and every revision under another cursor version, a run from the beginning in which the first page is committed and the second fails as stale, whatever it holds |
| StaleReload.StaleRunExists | src/market_intelligence/collection/control_plane.py:692-699 | A concrete provider and target of that kind |
| PlaneProgress.ResolveSucceeds | src/market_intelligence/collection/control_plane.py:499-554 | A pending continuation always resolves, in an adopted run as in a new one, and passes the trigger |
| PlaneProgress.Drains | src/market_intelligence/collection/control_plane.py:568-701 | Recovery: from every reachable state with a pending continuation, wherever its worker is, dispatches without further faults close the traversal with the whole chain committed, over any number of exhausted budgets and passed deadlines, at any clock, and whatever row every reload hits |
| PlaneProgress.Opens | src/market_intelligence/collection/control_plane.py:519-554 | Without a pending continuation a dispatch opens a traversal of the window its start and watermark resolve to, and leaves every checkpoint alone |
| PlaneGuards.StepsPassGuards | alembic/versions/0009_m2a_provider_breadth.py:150-282 | Every committed transaction passes the frozen-window trigger and the continuation trigger, writes only the current cursor row and leaves no bound run succeeded |
| PlaneGuards.GuardExact | alembic/versions/0009_m2a_provider_breadth.py:166-268 | The continuation trigger accepts the row a page transaction writes iff the next state names no SEC history file or the stored CIK has ten digits |
| PlaneGuards.ResolveNeverRefused | alembic/versions/0009_m2a_provider_breadth.py:166-268 | Freezing and rebinding a run is never refused by the continuation trigger |
| ShortCik.NeverCollects | alembic/versions/0009_m2a_provider_breadth.py:239-261 | With a stored CIK of fewer than ten digits, and an overlapping history file in the window of each traversal it opens, no run ever commits a page, moves a checkpoint, closes a traversal or succeeds until the target is revised |
| ShortCik.FixedNeverCollects | alembic/versions/0009_m2a_provider_breadth.py:239-261 | The fixed-window case: one overlapping history file in the target's own window is enough |
| CollectionWorker.ControlPlaneWorker.StartTargetRun | src/market_intelligence/collection/control_plane.py:413-465 | Adopts the running run or opens one, and snapshots the current cursor row |
| CollectionWorker.ControlPlaneWorker.ResolvedRunConfig | src/market_intelligence/collection/control_plane.py:467-554 | Equals the specified resolution, trigger included, and writes nothing when it raises or is refused |
| CollectionWorker.ControlPlaneWorker.ChargeRequest | src/market_intelligence/collection/control_plane.py:579-607 | Ends the run of a target that is no longer active, stops an exhausted one, or charges one request, as specified |
| CollectionWorker.ControlPlaneWorker.PersistResult | src/market_intelligence/collection/control_plane.py:703-813 | One page transaction: all writes or none, exactly when the specification commits, raises or is refused by the trigger |
| CollectionWorker.ControlPlaneWorker.FinishWithError | src/market_intelligence/collection/control_plane.py:850-888 | Retries at most three times, fails otherwise, and reports which |
| CollectionWorker.ControlPlaneWorker.FinishAfterLockLoss | src/market_intelligence/collection/control_plane.py:890-915 | Fails the run and changes nothing else |
| CollectionWorker.ControlPlaneWorker.RecoverStaleRun | src/market_intelligence/collection/control_plane.py:977-1019 | Fails the stale run and changes nothing else |
| CollectionWorker.ControlPlaneWorker.AbandonPendingContinuations | src/market_intelligence/collection/target_repository.py:440-480 | The release loop clears every pending continuation and keeps every checkpoint |
| CollectionWorker.ControlPlaneWorker.HandlePage | src/market_intelligence/collection/control_plane.py:653-701 | Everything between a charged request and the next: equals the specified step, with a retry after a refusal; success is reported only for a SUCCEEDED run |
| CollectionWorker.ControlPlaneWorker.ExecutePages | src/market_intelligence/collection/control_plane.py:568-701 | The page loop, against any sequence of answers, errors, timeouts, lock losses and crashes, is a run of the transition system, ends, and never falls out of its range |
| CollectionWorker.ControlPlaneWorker.Execute | src/market_intelligence/collection/control_plane.py:188-411 | One dispatch takes a reachable state to a reachable one, moves no checkpoint backward, and a report of success means a covered traversal |
| EndToEnd.FinnhubDelivered | src/market_intelligence/providers/breadth.py:333-410 | Once a Finnhub run is SUCCEEDED, however it got there, every row of the body has an identity (its id, or its URL digest), is audited under it when its URL, identity or timestamp is unusable, and is a raw item or audited when its day lies between the window's bounds |
| EndToEnd.SecDelivered | src/market_intelligence/providers/breadth.py:508-599 | Once a SEC run is SUCCEEDED, every filing dated d with start <= d <= end, in the main file or in the history file of any reference with from <= d <= to, has an accession number and is a raw item or audited if its form is allowed, audited if its form is unreadable |
| EndToEnd.MarketauxDelivered | src/market_intelligence/providers/breadth.py:290-332 | Once a Marketaux run is SUCCEEDED, full pages 1 to n hold exactly the `found` rows and every entry is stored or audited |
| EndToEnd.EiaDelivered | src/market_intelligence/providers/breadth.py:411-507 | Once an EIA run is SUCCEEDED, its offsets tile [0, total) and every entry is skipped by type, stored or audited |
| Completion.DrivenToItsEnd | src/market_intelligence/collection/control_plane.py:568-701 | Any complete chain whose states and items codec, triggers and store accept is closed by fault-free dispatches from any reachable pending state, whatever row every reload hits |
| Completion.FinnhubBehaves | src/market_intelligence/providers/breadth.py:333-410 | Finnhub answers stay in the codec's domain and carry distinct identities |
| Completion.MarketauxBehaves | src/market_intelligence/providers/breadth.py:290-332 | Marketaux answers stay in the codec's domain and carry distinct identities |
| Completion.EiaBehaves | src/market_intelligence/providers/breadth.py:411-507 | EIA answers stay in the codec's domain and carry distinct identities |
| Completion.SecBehaves | src/market_intelligence/providers/breadth.py:508-599 | SEC answers stay in the codec's domain and carry distinct identities; which of them the trigger stores is part of SecRuns |
| Completion.FinnhubRuns | src/market_intelligence/collection/control_plane.py:188-411 | From every reachable state of an active Finnhub target, for every body all fetches accept and none of whose items belongs to another account, fault-free dispatches end with a SUCCEEDED run and every in-window row stored or audited, on the row's own fields |
| Completion.MarketauxRuns | src/market_intelligence/collection/control_plane.py:188-411 | The same for Marketaux: every row within a thousand pages lands, and the run is SUCCEEDED, or PARTIAL iff there are more |
| Completion.EiaRuns | src/market_intelligence/collection/control_plane.py:188-411 | The same for EIA, with offsets that tile the series; a monthly window still to be opened must not start before year 1 |
| Completion.SecRuns | src/market_intelligence/collection/control_plane.py:188-411 | The same for SEC: every in-window filing of an allowed form, in the main file or in the history file of a reference that covers its date, is stored or audited, provided the stored CIK has ten digits or no history file overlaps |
| Pages.Deduplicate | src/market_intelligence/providers/breadth.py:602-613 | The dictionary pass refuses iff one identity has two different rows, and otherwise keeps first occurrences in order |
| Pages.DedupExact | src/market_intelligence/providers/breadth.py:602-613 | Without a conflict the kept rows have pairwise different identities and lose no row |
| Pages.FinishPage | src/market_intelligence/providers/breadth.py:142-206 | The validation loop yields the specified page, including untraceable rows and the page-1000 overflow |
| Pages.FinishCovers | src/market_intelligence/providers/breadth.py:142-206 | Every payload of a cut is on the page as a fact or its identity is audited, and facts have distinct identities |
| Pages.ChainPrefix | src/market_intelligence/providers/breadth.py:60-206 | Every traversal of a stable provider is a prefix of the one complete chain |
| Pages.NoPageTwice | src/market_intelligence/providers/breadth.py:60-206 | A chain that ends requests no page twice |
| Pages.CompleteExists | src/market_intelligence/providers/breadth.py:60-206 | A provider that accepts every request its chains lead to, and whose chains are bounded, has a complete chain |
| Counted.SplitEntries | src/market_intelligence/providers/breadth.py:290-320 | The sanitising loop splits entries into payloads and audited identities, and fails iff an unusable entry has no identity |
| Counted.MarketauxAnswerExact | src/market_intelligence/providers/breadth.py:290-332 | A Marketaux answer is accepted iff its total lies in 0 to ten million and it holds exactly the rows that belong on the page, all auditable |
| Counted.EiaAnswerExact | src/market_intelligence/providers/breadth.py:493-507 | An EIA answer is accepted iff its total lies in 0 to ten million and it holds at most the rows left or asked for, none only at the end, all auditable |
| Counted.MarketauxTiles | src/market_intelligence/providers/breadth.py:321-332 | For a stable `found` the pages of a complete chain are full up to the last and tile [0, found), cut off and flagged incomplete iff found exceeds 1000 pages |
| Counted.MarketauxEnds | src/market_intelligence/providers/breadth.py:321-332 | No chain is longer than a thousand requests |
| Counted.MarketauxCompletes | src/market_intelligence/providers/breadth.py:290-332 | For every result whose pages hold the rows that belong on them a complete chain exists, and it ends at `found` or at page 1000 |
| Counted.MarketauxProgress | src/market_intelligence/providers/continuation.py:140-146 | Every next state with rows left is page 2 to 1000 and differs from the request's |
| Counted.EiaTiles | src/market_intelligence/providers/breadth.py:494-507 | For a stable total the offsets rise strictly and tile [0, total), in at most `total` requests |
| Counted.EiaEnds | src/market_intelligence/providers/breadth.py:494-507 | With a stable total no chain is longer than total + 1 |
| Counted.EiaCompletes | src/market_intelligence/providers/breadth.py:411-507 | For every series whose offsets answer with rows up to the total a complete chain exists and tiles [0, total) |
| Counted.EiaProgress | src/market_intelligence/providers/continuation.py:147-153 | Every next offset with rows left lies in 1 to 10,000,000 and differs from the request's |
| Finnhub.ReadBody | src/market_intelligence/providers/breadth.py:333-396 | The row loop keeps, skips, rejects or fails each row as specified |
| Finnhub.FinnhubTiles | src/market_intelligence/providers/breadth.py:397-410 | The chained pages of an accepted body are consecutive slices of at most `limit` rows and concatenate to exactly the sorted, deduplicated in-window list |
| Finnhub.FinnhubEnds | src/market_intelligence/providers/breadth.py:397-410 | No chain over one body is longer than its in-window rows plus one |
| Finnhub.FinnhubCompletes | src/market_intelligence/providers/breadth.py:333-410 | For every body without unreadable rows, identity conflicts or oversized keys a complete chain exists and tiles the in-window list |
| Finnhub.NoKeyTwice | src/market_intelligence/providers/breadth.py:397-410 | Even if the body changes between fetches, no (timestamp, identity) key is emitted twice and keys rise over the traversal |
| Finnhub.FinnhubProgress | src/market_intelligence/providers/breadth.py:642-650 | A key handed out with rows left is accepted by adapter and codec and is not the one asked for |
| Finnhub.CutsOnlyAsked | src/market_intelligence/providers/breadth.py:333-410 | A request cuts only rows with usable identity, URL and timestamp whose day lies in the window, under the id of the row or, without one, its URL digest |
| SecEdgar.ReadFile | src/market_intelligence/providers/breadth.py:536-576 | The row loop keeps, skips, rejects or fails each filing as specified |
| SecEdgar.SecTraversal | src/market_intelligence/providers/breadth.py:508-599 | The pages of a complete traversal concatenate to the main list and then each overlapping history list, in order, in at most rows plus files requests |
| SecEdgar.SecEnds | src/market_intelligence/providers/breadth.py:508-599 | No chain, complete or not, is longer than rows plus files |
| SecEdgar.SecCompletes | src/market_intelligence/providers/breadth.py:508-599 | For bodies with sound references and readable, conflict-free planned files a complete chain exists and delivers the main list and then each overlapping history list |
| SecEdgar.SecNeeds | src/market_intelligence/providers/breadth.py:508-599 | A complete chain proves the references sound, their number allowed and every planned file readable and conflict-free |
| SecEdgar.SecOpensOnce | src/market_intelligence/providers/breadth.py:508-535 | The main file and every overlapping history file are opened exactly once |
| SecPlan.PlanExact | src/market_intelligence/providers/breadth.py:513-535 | The planned history files are the files of exactly the references that share a day with the window, in reference order |
| SecPlan.OpensSharedDays | src/market_intelligence/providers/breadth.py:508-535 | A complete traversal sends one opening request for every reference that shares a day with the window, in reference order, and never opens or reads another history file |
| SecPlan.CutsOnlyAsked | src/market_intelligence/providers/breadth.py:536-572 | A request cuts only filings of its file whose date lies in the window and whose form is allowed, under their own accession number and date, and reports only filings whose date or form is unreadable |
| SecPlan.CutGuarded | src/market_intelligence/providers/breadth.py:508-545 | Every accepted request, planned or not, names files of this CIK only, within the history budget, resumes at a key of at most 200 characters a part, found every reference sound, and every row with an accession number |
| SecEdgar.SecKeysRise | src/market_intelligence/providers/breadth.py:557-583 | Within a file (filing date, accession) keys rise strictly and identities are distinct |
| SecEdgar.SecCovers | src/market_intelligence/providers/breadth.py:508-599 | Every in-window filing of an allowed form is cut by some request, every permanently invalid one is reported by some request |
| SecEdgar.LeftFalls | src/market_intelligence/providers/breadth.py:582-599 | The measure (files left, rows left) falls with every request |
| Continuation.RoundTrip | src/market_intelligence/providers/continuation.py:84-192 | Encoding succeeds iff the state is in the operation's domain, and decoding returns it unchanged |
| Continuation.FileNameExact | src/market_intelligence/providers/continuation.py:139-202 | A history file name is accepted iff it is CIK, the CIK, -submissions-, three digits and .json |
| Continuation.OneBinding | src/market_intelligence/providers/continuation.py:106-192 | A continuation decodes under exactly one operation, configuration, window and lineage |
| Continuation.NormalisedConfig | src/market_intelligence/providers/breadth_config.py:12-107 | A configuration is accepted iff its window is and, for SEC, the CIK has one to ten digits and the history budget is 0 to 5; normalising keeps the window, writes the same CIK number in ten digits, defaults the budget to 2 and rewrites nothing else |
| Continuation.HashesAgree | src/market_intelligence/providers/breadth_config.py:45-107 | Normalising a resolved configuration again changes nothing, so worker and adapter compute one hash |
| Continuation.StoredCikGuard | alembic/versions/0009_m2a_provider_breadth.py:239-261 | The trigger matches SEC file names against the unpadded CIK, so it accepts the adapter's names iff the stored CIK has ten digits |
| Continuation.StoredCikGuardFails | alembic/versions/0009_m2a_provider_breadth.py:239-261 | With CIK 1 every history file name the adapter uses is refused |
| Windows.RollingWindowSound | src/market_intelligence/providers/windows.py:91-136 | For every valid rolling configuration, clock and watermark the window is at most 31 (RTO: 7) days long, ends at the last complete unit before the lag, begins in the unit of the lookback, or of watermark less overlap when that is later, or an hour before the end when that is later still, and contains every instant the lookback and overlap ask for |
| Windows.MonthlyWindowSound | src/market_intelligence/providers/windows.py:91-136 | Monthly windows end at the last complete month before the lag, begin exactly at the lookback, at the watermark's month less the overlap when that is later, or at the end when that is later still, span 0 to 11 months and contain every month asked for |
| Windows.ResolvedWindowAccepted | src/market_intelligence/providers/windows.py:8-136 | A resolved window is accepted iff it is not a monthly window that starts before year 1 |
| Downstream.PersistFetchResult | src/market_intelligence/collection/downstream.py:43-106 | The persistence loop equals the specified fold, including the trigger's refusal and the abort |
| Downstream.PersistConserves | src/market_intelligence/collection/downstream.py:296-339 | Nothing stored is lost or changes owner, every fact is stored, and the insert counter is exactly the growth of the run's own items |
| Downstream.PersistExact | src/market_intelligence/collection/downstream.py:296-339 | A page with distinct identities is stored iff none of its items belongs to another account and none was observed under the same run and page with other content; otherwise the first fact in the way decides between the trigger's refusal and an exception |
| Downstream.StoredExact | src/market_intelligence/collection/downstream.py:296-339 | A stored page adds exactly the identities of its facts to the raw items, the new ones under its own run, the others as they were |
| Downstream.PersistAccepts | alembic/versions/0007_create_safe_fact_projections.py:203-236 | When earlier observations under its keys came from the same content, a page is accepted iff none of its items belongs to another account of the source, and refused by the trigger otherwise |
| Downstream.ReplayChangesNothing | src/market_intelligence/collection/downstream.py:43-106 | Persisting a page again changes nothing and counts every fact as a duplicate |
| OtherAccount.NeverAdvances | alembic/versions/0007_create_safe_fact_projections.py:203-236 | From every reachable state whose pending page holds an item first stored under another account, nothing ever commits a page, moves a checkpoint, closes the traversal or succeeds until the continuation is abandoned or the target revised |
| OtherAccount.BarredFromTheStart | src/market_intelligence/collection/downstream.py:296-339 | The first dispatch of a fixed-window target whose first page holds such an item reaches such a state |
| HandoffTheorems.HandoffSafe | src/market_intelligence/evidence/handoff.py:70-390 | Any interleaving of workers, recovery and permitted outside writes keeps the link, origin and agreement invariants |
| HandoffTheorems.CanonicalOrigins | src/market_intelligence/evidence/handoff.py:327-353 | In every reachable state each evidence row with linked rows has exactly one canonical-evidence link, each linked content row exactly one canonical-content link, and both agree with that link's projection |
| HandoffTheorems.TriggersAgainstPython | alembic/versions/0010_rich_evidence_projection_immutability.py:237-484 | For every row Python writes from a reachable state, the triggers refuse it iff an adopted plain identity carries another hash; inserted rows and rows with a LINKED origin are never refused |
| HandoffLinks.LinkWrites | src/market_intelligence/evidence/handoff.py:175-363 | A committed link is for a READY canonical projection of a permitted operation, contract version and retention class; it points at a new evidence row under the projection's identity and hash, which no row of the provider carried, or at the only row of its raw item and provider, and likewise for content; attempts stay and no other link changes |
| HandoffLinks.FirstLinkExact | src/market_intelligence/evidence/handoff.py:400-464 | The first projection of a raw item without evidence or content is linked iff it is supported, no evidence of its provider has its identity or hash, and no content of its source stands where it would put its own; the triggers never object |
| HandoffLinks.UnsupportedConflicts | src/market_intelligence/evidence/handoff.py:196-330 | A projection that is not READY, not canonical, of inconsistent provenance, or of an operation, version or retention class outside the policy is a conflict |
| HandoffLinks.AdoptionExact | src/market_intelligence/evidence/handoff.py:551-612 | An existing evidence row is accepted for its origin iff every column restates the origin and it carries the plain identity with the operation's access, or, for the four operations with an earlier mapper, that mapper's identity with link-only access |
| HandoffTheorems.NeverRefused | src/market_intelligence/evidence/handoff.py:522-633 | Evidence and content with linked rows are never refused by a later valid READY projection of the same raw item, operation and identity; the transaction commits, to that evidence, iff it does not have to create content that collides with another raw item's |
| HandoffTheorems.LinkKeeps | src/market_intelligence/evidence/handoff.py:175-363 | The link transaction keeps every invariant |
| HandoffTheorems.MutateKeeps | alembic/versions/0010_rich_evidence_projection_immutability.py:492-640 | Outside writes that pass the immutability triggers keep every invariant |
| HandoffTheorems.ClaimsBounded | src/market_intelligence/evidence/handoff.py:108-173 | Under any interleaving every link is claimed at most max_attempts times (once if that is not positive), and RETRY means attempts remain and a retry is scheduled |
| HandoffProgress.ClaimExact | src/market_intelligence/evidence/handoff.py:134-173 | A claim charges an attempt and starts PROCESSING iff the projection is READY, the status PENDING or RETRY, and the retry time absent or not after now; otherwise nothing changes |
| HandoffProgress.DiscoverExact | src/market_intelligence/evidence/handoff.py:88-106 | Discovery creates a PENDING link without attempts iff the projection is READY and has no link |
| HandoffProgress.RecoveryExact | src/market_intelligence/evidence/handoff.py:108-132 | Recovery touches a link iff it is PROCESSING, was last touched longer ago than the bound, and its projection is READY; it is then claimable at once, or BLOCKED when its attempts are used up |
| HandoffProgress.FailsUntilBlocked | src/market_intelligence/evidence/handoff.py:108-173 | A link whose projection stays READY and whose transactions keep failing, by an error or by a dead worker, on any schedule that waits for its retry times, is claimed at every try until max_attempts (once if not positive), waits in RETRY with its retry time before that, and is BLOCKED from then on |
| HandoffTheorems.Absorbing | src/market_intelligence/evidence/handoff.py:365-390 | A LINKED or BLOCKED link row never changes again |
| HandoffTheorems.LeavesProcessing | alembic/versions/0009_m2a_provider_breadth.py:52-57 | A claimed link can leave PROCESSING, by whatever step, iff its projection is READY |
| EvidencePolicy.AgreesPassesOperation | alembic/versions/0010_rich_evidence_projection_immutability.py:275-343 | Agreement in Python's form implies the operation trigger, for every operation and the legacy identities |
| EvidencePolicy.AgreesIdentity | alembic/versions/0010_rich_evidence_projection_immutability.py:349-412 | Given agreement in Python's form, the identity trigger accepts iff the hash is the origin's or the identity is the legacy one |
| EvidencePolicy.ContentAgreesPasses | alembic/versions/0010_rich_evidence_projection_immutability.py:416-468 | The two content checks agree on every canonical payload |
| EvidencePolicy.PlainAdoptionRefused | src/market_intelligence/evidence/handoff.py:596-610 | An adopted row that Python accepts and the trigger refuses |
| HandoffWorker.EvidenceProjectionHandoffWorker.DiscoverReady | src/market_intelligence/evidence/handoff.py:88-106 | The discovery loop is a run of discovery steps |
| HandoffWorker.EvidenceProjectionHandoffWorker.RecoverStaleLinks | src/market_intelligence/evidence/handoff.py:108-132 | The recovery loop is a run of recovery steps, or changes nothing and raises iff the trigger refuses a stale row of the selection |
| HandoffWorker.EvidenceProjectionHandoffWorker.ClaimLinks | src/market_intelligence/evidence/handoff.py:134-173 | Takes exactly the selected rows that have a READY projection, are PENDING or RETRY and have no retry time left to wait for, once each: each is PROCESSING with one more attempt and no retry time, no other row changes |
| HandoffWorker.EvidenceProjectionHandoffWorker.RetryAfter | src/market_intelligence/evidence/handoff.py:374-390 | Gives the link back while attempts remain, blocks it otherwise, and raises iff a claimed link's projection is no longer READY |
| HandoffWorker.EvidenceProjectionHandoffWorker.TerminalBlock | src/market_intelligence/evidence/handoff.py:365-372 | Blocks a PROCESSING link and nothing else, and raises under the same condition |
| HandoffWorker.EvidenceProjectionHandoffWorker.LinkTransaction | src/market_intelligence/evidence/handoff.py:175-353 | The whole transaction equals the specified one |
| HandoffWorker.EvidenceProjectionHandoffWorker.LinkItem | src/market_intelligence/evidence/handoff.py:354-363 | A transaction with its handlers is a run of the transition system; the reported result is the row's status, and there is none only for a claimed link whose projection is no longer READY |
| HandoffWorker.EvidenceProjectionHandoffWorker.ProcessBatch | src/market_intelligence/evidence/handoff.py:70-86 | With other writers in between, a batch is a run of the transition system; its report accounts for every claimed row; it ends without one only if a claimed link lost its READY projection, and does nothing if that link is in the stale selection |
| Matching.MatchExisting | src/market_intelligence/event_intelligence/matching.py:160-220 | Collecting, minimising and filtering yields the decision that means: no match, the single best, or a tie at the best rank |
| Matching.PriorityExact | src/market_intelligence/event_intelligence/matching.py:160-220 | On the candidates' known signatures: a shared official identity beats a shared canonical URL, that a shared provider id, that title and entity within a day, that a shared item hash; candidate k is matched with rank r iff it alone has reason r and no candidate a better one, the result is ambiguous at r iff several have it, and new iff nobody has any reason |
| Matching.AnchorIsRanked | src/market_intelligence/event_intelligence/matching.py:137-158 | A candidate that holds the evidence's anchor, the daily bucket included, is always ranked as a match |
| CandidateMemory.AnchorIsTopReason | src/market_intelligence/event_intelligence/matching.py:125-158 | The derived cluster key is the item's best reason to be matched: official identity, URL, provider id, daily bucket of its entities and title, item hash, in the order matching ranks them |
| Matching.NewKeyIsFree | src/market_intelligence/event_intelligence/matching.py:160-220 | NEW_CANDIDATE is decided only when the derived cluster key is free |
| Candidates.CreationExact | src/market_intelligence/event_intelligence/service.py:152-220 | NEW_CANDIDATE always creates; creation falls back on an existing row iff the decision is ambiguous and the item already has its ambiguous candidate |
| Candidates.AggregatesAgree | src/market_intelligence/event_intelligence/service.py:136-398 | Over every serial run: one active association per item, counts equal active links and distinct sources, REJECTED iff none, first_seen <= latest_seen, anchors unique and remembered, a strong identity iff an official signature is known |
| Candidates.ProcessTwice | src/market_intelligence/event_intelligence/service.py:136-151 | Processing an associated item again changes nothing |
| CandidateMemory.ProcessLearns | src/market_intelligence/event_intelligence/service.py:136-246 | Processing adds exactly one association, with the rule and official flag of the decision, to the matched candidate, a new one, or the one this item was given before; that candidate learns exactly the item's signatures, title, entities, times and strong identity, and no other candidate changes |
| CandidateMemory.NeverNewAgain | src/market_intelligence/event_intelligence/service.py:315-345 | Over every serial run, an item that shares hash, provider id or URL with evidence that was ever associated, or a title and an entity within a day of it, is never decided to be new, whatever was deactivated or regrouped in between |
| AmbiguousRuns.AmbiguousAgain | src/market_intelligence/event_intelligence/service.py:209-220 | A family of runs in which creation returns an existing row |
| AmbiguousRuns.TyingExample | src/market_intelligence/event_intelligence/service.py:209-220 | A concrete triple of items of that family |
| CandidateService.EventCandidateService.RecalculateAggregates | src/market_intelligence/event_intelligence/service.py:347-377 | One pass computes the number of active links, the distinct sources and the status |
| CandidateService.EventCandidateService.AssociateAndRefresh | src/market_intelligence/event_intelligence/service.py:222-343 | Association and refresh equal the specified update |
| CandidateService.EventCandidateService.CreateOrGet | src/market_intelligence/event_intelligence/service.py:165-220 | Inserts, or returns the holder of the cluster key |
| CandidateService.EventCandidateService.ProcessItem | src/market_intelligence/event_intelligence/service.py:136-163 | Equals the specified process step |
| CandidateService.EventCandidateService.DeactivateAssociation | src/market_intelligence/event_intelligence/service.py:248-277 | Equals the specified deactivation |
| CandidateService.EventCandidateService.RegroupAssociation | src/market_intelligence/event_intelligence/service.py:279-313 | Equals the specified regrouping |
| DueScan.TargetScheduler.ClaimDue | src/market_intelligence/collection/control_plane.py:100-148 | On an unchanged table: claims only automatic loadable targets with due time not after now whose marker was absent or expired, in (due, priority, id) order, leaves none of them out before a claimed one and none at all unless limit or scan budget is reached; sets exactly their markers, for the longest of configured time, cadence and runtime margin |
| DueScan.TargetScheduler.ScanPages | src/market_intelligence/collection/control_plane.py:106-147 | The nested loops resume after the last row scanned and end |
| DueScan.ResumeIsSuffix | src/market_intelligence/collection/target_repository.py:493-536 | Resuming after the k-th due row yields exactly the remaining due rows |
| DueScan.CadenceSlotOnce | src/market_intelligence/collection/control_plane.py:126-140 | One cadence slot of a target revision is never claimed twice while its marker is not released |
| DueScan.NoEarlySecondGrant | src/market_intelligence/collection/control_plane.py:136-140 | Two grants of one identity without a release between them are at least one marker lifetime apart |
| DueScan.RetrySlotAgain | src/market_intelligence/collection/control_plane.py:126-140 | A retry slot can be claimed again iff its marker has expired |
| DueScan.TargetScheduler.ReleaseMarker | src/market_intelligence/collection/control_plane.py:150-156 | Release removes the marker and no other |
| Intents.PassShrinks | src/market_intelligence/notifications/intent.py:144-251 | Each pass shrinks the backlog of open recoveries and unscanned items by at least min(limit, backlog) |
| Intents.EventuallyAnnounced | src/market_intelligence/notifications/intent.py:86-111 | Enough passes empty the backlog; then every eligible item holds its deduplication key, no item has two intents, and items at or before the watermark gained none |
| Intents.NeverBehind | src/market_intelligence/notifications/intent.py:254-287 | Content created before the watermark, or with it under an id not greater, or that the policy does not announce, never gains an intent in any number of passes |
| Intents.EveryLaterItem | src/market_intelligence/notifications/intent.py:144-252 | After enough passes every presentable item of an announced provider and kind, of an enabled and authorised source, created after the watermark or with it under a greater id, holds its key and no second intent |
| Intents.PolicyFormsAgree | src/market_intelligence/notifications/intent.py:213-240 | The policy of the candidate check and of the query are the same |
| Intents.NotificationIntentReconciler.CreatePendingIntent | src/market_intelligence/notifications/intent.py:86-111 | Creates the intent of an item, and changes nothing else, iff it is presentable, announced by the policy, after the watermark in (created_at, id) order, and its deduplication key is free |
| Intents.NotificationIntentReconciler.ResolveRecoveries | src/market_intelligence/notifications/intent.py:173-187 | The recovery loop equals the specified fold |
| Intents.NotificationIntentReconciler.ScanCandidates | src/market_intelligence/notifications/intent.py:245-251 | The scan loop equals the specified fold |
| Intents.NotificationIntentReconciler.Reconcile | src/market_intelligence/notifications/intent.py:144-251 | One pass within its limit; an invalid limit changes nothing |

## Left out

- HTTP transport, credentials, the Redis client, task queues, ORM plumbing, logging, settings, health endpoints: wiring; lock, marker and transaction steps are kept.
- Scripts, the pipeline facades, v1 single-page adapters, the legacy runner and scheduler, the v1 continuation marker: weaker versions of the same protocol.
- URL canonicalisation, regular expressions, title tokenising, calendar formatting and the factual payload validator: predicates or computed inputs.
- Scoring, impact analysis, feeds and message delivery: short computations on their own rows.
- Late workers that commit after their lock expired: the code does not promise stable terminal states there, so the model has one worker per target lock.
- The control plane models one target in one run mode; other targets and the other mode appear as foreign inserts of raw items. Health fields, due times and retry times of a target are not part of it.
- The legacy cursor copy written beside a v2 cursor is not part of the model.
- PlaneCommit.RunningMaxExact: one string order stands for both comparisons of a cursor; the code compares text in the adapter and parsed timestamps when it stores, and rejects timestamps without zone, which agrees on the normalised timestamps of a provider.
- EvidencePolicy.AgreesIdentity: the legacy identity is one field; that Python and the trigger compute the same digest from a payload is assumed.
- Windows.RollingWindowSound: instants are unbounded integers; the calendar limits of years 1 to 9999 are only modelled for monthly windows.
- SecEdgar.SecTraversal: coverage is stated over (filing date, accession) keys and row bodies, not over the `submissions_file` field, which is empty when the main file is resumed.
- DueScan.TargetScheduler.ClaimDue: the table does not change during a call and stored configurations are valid; a configuration error would end the call.
- HandoffTheorems.HandoffSafe: run, account and target rows of a projection's provenance are one flag; concurrency failures of the database are the retry step.
- Handoff.LinkOne: an item deleted by an outside writer is not modelled; rows are only added or replaced.
- Candidates.AggregatesAgree: evidence rows do not change after they arrive; execution is serial.
- Intents.EventuallyAnnounced: content and sources do not change between passes and no second pass runs at the same time.
- The text form of the intent watermark is not part of the model.
