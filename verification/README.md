# Verified model of the film-production coordinator

A Dafny model of the coordinating core under `src/fsf/production` and two files of `src/fsf/core`, with proofs of what
that core promises. `dafny verify dfyconfig.toml` checks all of it.

## What is modelled

- **The production store** (`StoreState`, `StoreInv`, `StoreLaws`, `StoreRuns`, `StoreForecast`, `Store`). `StoreState` gives every
  transaction of `store.py` as a function from tables to a result and new tables. `Store` is the object itself: one field
  per table, one method per transaction, proved to do what the function says. `StoreInv` proves what each transaction
  keeps, `StoreLaws` what it answers and does in terms of the tables alone. `StoreRuns` puts the store under competing
  runners that crash between a commit and a provider call. `StoreForecast` proves that an affordable forecast of the remaining work is enough until the end.
- **The runner** (`StoreRunner`, `Verification`). The work loop of `store_runner.py` drives the store and a provider that
  may answer anything, with other processes acting between its transactions; the loop ends by a measure, not by its
  deadline. The verification sweep is resumable and races with changes of the execution.
- **The ledger** (`LedgerBook`, `LedgerLaws`, `Ledger`, `LedgerRefinement`). The single-file ledger recomputes every sum. It is proved
  safe by itself, and the store's cached totals are proved to decide as it does.
- **The GPU pool** (`PoolState`, `PoolSafety`, `PoolLaws`, `ResourcePool`). Admission with slots, memory, exclusive claims, residents,
  leases that lapse to unknown, bounded overtaking, and releases that survive a crash between their two writes.
- **The ducking envelope** (`Ducking`, `DuckingLaws`). The sweep against the pointwise minimum of the events' ramps.
- **Windows, dependencies and the workflow** (`Segments`, `Dependencies`, `Workflow`, `WorkflowLaws`).
- **The JSON batch and publication** (`BatchRunner`, `Publication`). One task of a batch across workflow, ledger and
  provider, and the staged acceptance of a published file, both with a crash possible after every durable step.
- **Chunked artifacts** (`Artifacts`), **edits** (`Editing`, `EditingRuns`, `EditingLaws`), **audio layout** (`AudioLayout`,
  `AudioEvents`) and **world state** (`WorldMotion`, `WorldFacts`, `WorldLaws`, `WorldState`).

`Wrappers`, `Ids`, `Sums`, `Sorting`, `Graph`, `Reals` and `Integers` hold the vocabulary: optional values and results,
identifiers, sums over maps, sorted listings, reachability and cycles, and single arithmetic steps.

## How it is modelled

- A digest is the thing it is the digest of: request ids are (execution, task, epoch), a chunk's digest holds its bytes,
  the ledger's cost basis is the map of costs. So digests are injective, and nothing else about them is used.
- A database transaction and a file publication by rename happen entirely or not at all. Crashes fall between them; a
  file being written may hold anything after its last synchronised byte.
- Clocks, hold files, probes, stop observations and provider answers are inputs or are left undetermined.
- Integers are unbounded, and the bound of 2^63 - 1 that `integer` enforces is written where it is checked. Fractions are
  reals. `%` and `//` are only used with positive divisors, where Python's floor and Dafny's Euclidean forms agree.
- What validation and the JSON schemas guarantee appears as a condition: plans with declared parents and nonnegative
  costs (`PlanOk`), budgets within the integer range, capabilities with `max_frames` and `frame_step` at least 1, the two
  new ids of a split distinct, a reorder naming no clip twice, at least one clip in an edit, routes of at least two
  anchors, event starts not negative.

Two remarks that follow from the definitions are kept beside the model: a result is accepted with the evidence it was
verified with (`Workflow.AcceptedTwiceSeen`), and the remainder just read can always be recorded while a forecast covers
(`StoreForecast.ExactIsHonest`).

## Where the code and its expectations part

- An outbox does not always pass through "sending". In a single step it goes from "prepared" straight to "observed" exactly
  when running, produced, failed or cancelled is reported on the current epoch of a request that was not yet marked
  (`StoreRuns.LeavesPrepared`; `StoreRuns.SkipHappens` is an instance), and then it is never sent
  (`StoreRuns.SkippedIsNeverSent`). The work loop itself reports only on requests it has sent, so while it runs the step is
  taken only by a confirmed cancellation (`StoreRunner.RunBatch`).
- `check` reports a corrupt store, before anything was reserved, exactly when the cleanup reserve exceeds the whole budget,
  which `create` accepts (`StoreInv.CheckAgrees`).
- Reordering clips can make clear events of one clip overlap, exactly when a frame is not a whole number of samples
  (`AudioEvents.ReorderSafeIffWhole`, with an instance in `AudioEvents.NtscReorder`); events of different clips never do.
- A store error for a sum beyond the integer range is a plain over-budget refusal in the ledger
  (`LedgerRefinement.MoneyAgrees`, `LedgerRefinement.ForecastRefinesRecord`).

## Model

| member | source | states |
|---|---|---|
| StoreInv.ClaimKeeps | src/fsf/production/store.py:458-528 | a claim, granted or refused, keeps the whole store invariant: sums, limits, counters, links, rounds, forecast |
| StoreInv.SettleKeeps | src/fsf/production/store.py:615-640 | so does a bill, on time or late |
| StoreInv.AcceptKeeps | src/fsf/production/store.py:652-690 | so does acceptance, although it only decrements the counters of the children |
| StoreInv.InvalidateKeeps | src/fsf/production/store.py:781-800 | so does invalidation, although it recounts only the closure of the changed tasks |
| StoreInv.CancelObservedKeeps | src/fsf/production/store.py:571-582 | so does the three-transaction outcome of a cancellation |
| StoreInv.InputsAccepted | src/fsf/production/store.py:465-466 | in every reachable store an accepted task, and a task with a live attempt, has every parent accepted |
| StoreInv.SlotNeverTaken | src/fsf/production/store.py:71-72 | when no two generating tasks of an execution share shot and segment, no claim can meet the generation-slot unique index |
| StoreInv.ClaimRoundFresh | src/fsf/production/store.py:478-491 | the round a claim is made in is later than that of every earlier reservation of the task |
| StoreInv.NoLiveLeftBehind | src/fsf/production/store.py:480-491 | moving a shot to its next repair round leaves no live generation attempt in it |
| StoreInv.SettleOnlyMoney | src/fsf/production/store.py:615-640 | a bill for any request, superseded or not, changes money and that reservation's fee and nothing else |
| StoreInv.CancelReleasesNoFee | src/fsf/production/store.py:571-582 | a confirmed stop ends the attempt and moves no total: the fee stays held until it is billed |
| StoreInv.CheckAgrees | src/fsf/production/store.py:725-763 | `check` passes on a store only its own transactions touched exactly when every accepted file is still the one its evidence is about, every task still has its document, and the cleanup reserve still fits; the reserve always fits once anything was reserved, and on a new store unless it exceeds the budget |
| StoreForecast.CoveredIsNotRefused | src/fsf/production/store.py:499-526 | with a forecast that covers the recomputed remainder, a ready claim meets neither the total-units limit nor a forecast refusal |
| StoreForecast.RecordingCovers | src/fsf/production/store.py:642-650 | recording a remainder yields such a forecast exactly when it is at least the recomputed one and affordable |
| StoreForecast.ClaimStaysCovered | src/fsf/production/store.py:522-526 | a claim uses up at least as much of the remainder as of the forecast, so the forecast still covers |
| StoreForecast.ForecastSuffices | src/fsf/production/store.py:499-526 | over every run that neither invalidates nor records a forecast too small or unaffordable, with sends, crashes and bills, the forecast stays covering and current; the total units fit for every ready task, and a claim is over budget only for its route or its frames |
| StoreForecast.ReadThenRecord | src/fsf/production/store_runner.py:137-141 | a remainder that was read and is recorded after any moves of other runners short of invalidation is never too small; the record covers exactly when it is still affordable |
| StoreRuns.CommitKeeps | src/fsf/production/store.py:458-801 | every transaction, the sending mark included, keeps the store invariant |
| StoreRuns.CommitGrows | src/fsf/production/store.py:530-640 | every transaction, the sending mark included, only adds to the record: reservations stay as made, ends and bills are final, outboxes and repair rounds never go back |
| StoreRuns.MoveKeeps | src/fsf/production/store_runner.py:156-175 | every step of competing runners, their crashes and the provider calls keeps: what a runner is about to send is past "prepared" and was not sent |
| StoreRuns.SubmittedAtMostOnce | src/fsf/production/store_runner.py:156-175 | over every interleaving of runners, crashes, cancellations, renewals and bills each request is given to the provider at most once |
| StoreRuns.SubmittedAtMostOnceFromNew | src/fsf/production/store_runner.py:156-175 | so from a new store on, every run is safe: at most one submission of each request, and every worst case not settled held in `used` |
| StoreRuns.FeesHeld | src/fsf/production/store.py:615-640 | in every reachable store `used` is exactly the worst cases of all unsettled reservations, submitted or not, plus the bills of the settled ones |
| StoreRuns.SubmittedIsRecorded | src/fsf/production/store_runner.py:166-172 | whatever the provider was given is in the store, past "prepared" |
| StoreRuns.LeavesPrepared | src/fsf/production/store.py:537-613 | in every step from every reachable world an outbox goes from "prepared" to "observed" exactly when the step reports running, produced, failed or cancelled on the current epoch of that request, and to "sending" exactly when a sending mark succeeds |
| StoreRuns.SkippedIsNeverSent | src/fsf/production/store.py:598-613 | after a step in which an outbox skips "sending", the request is never given to the provider in any run |
| StoreRuns.SkipHappens | src/fsf/production/store.py:571-613 | a concrete plan of one task: created, claimed, reported cancelled, and observed without having been sent |
| StoreLaws.NothingStartsWhileShut | src/fsf/production/store.py:386-397 | in every step of every runner and process, no attempt appears, none is marked as sending and no lease changes while its execution is unknown or paused, the store revoked or unauthorized, the authorization expired, or the hold set |
| StoreLaws.NothingStartsBarred | src/fsf/production/store.py:386-397 | over every run of a revoked store, or of a paused execution that nobody resumes, no attempt appears and none is sent |
| StoreLaws.GatesMove | src/fsf/production/store.py:707-713 | only a revocation revokes, and for good; only a pause of a known execution pauses or resumes it |
| StoreLaws.ClaimGrantedWhen | src/fsf/production/store.py:458-528 | a claim is granted exactly for an open gate, an unaccepted task with accepted inputs and no attempt under way, fewer than three attempts, a round that may be used, room in the recomputed sums, and from four fifths of the budget on only for essential work that the forecast allows for |
| StoreLaws.ClaimAnswers | src/fsf/production/store.py:458-528 | the first thing that stands against a claim is its answer |
| StoreLaws.ClaimedAs | src/fsf/production/store.py:476-528 | a claim is a new attempt under the next number, leased as asked, unsent, with its full worst case in the totals and taken out of the forecast; nothing else changes |
| StoreLaws.SentWhen | src/fsf/production/store.py:537-548 | a request is marked as sending exactly by its holder, the gate open and the lease running, if it was never sent |
| StoreLaws.SendRefusals | src/fsf/production/store.py:537-548 | the fence, then the gate, then the lease, then what was sent before decide a refusal |
| StoreLaws.RenewedWhen | src/fsf/production/store.py:550-561 | a lease is renewed exactly by the owner of an unsent request in force, the gate open, to the time asked for |
| StoreLaws.ObservedWhen | src/fsf/production/store.py:598-613 | a report changes only an unfinished request in force, to the status reported, seen unless unknown |
| StoreLaws.CancelObservedWhen | src/fsf/production/store.py:571-582 | only a confirmed stop ends an attempt, and its fee is then unknown until billed |
| StoreLaws.AcceptedWhen | src/fsf/production/store.py:652-683 | acceptance needs a produced or verified result in force and a sealed accepting report about this very file, under the policy, with the publication and quality result on record where the driver is bound |
| StoreLaws.AcceptedAs | src/fsf/production/store.py:683-690 | the task takes the evidence, each child waits for one input less, and what waited for a repair round of the shot is woken; no other row changes |
| StoreLaws.RejectedWhen | src/fsf/production/store.py:692-705 | a rejection needs a produced result in force and a sealed rejecting report |
| StoreLaws.SettledWhen | src/fsf/production/store.py:615-640 | a bill is for any known reservation, once and within its worst case, and moves the totals by the difference |
| StoreLaws.RemainderOf | src/fsf/production/store.py:803-818 | the remainder of a task is nothing once accepted, and before its worst case for every round or attempt it has left |
| StoreLaws.StoredSuffices | src/fsf/production/store.py:642-650 | over every run with honest records, invalidations included, a stored forecast is at least the recomputed remainder |
| StoreLaws.ReopeningNeedsForecast | src/fsf/production/store.py:800-800 | after an invalidation, whatever follows, nothing is claimed in the last fifth of the budget before a forecast is recorded anew |
| StoreLaws.InvalidatedWhen | src/fsf/production/store.py:783-790 | refused exactly when an affected task has unfinished work, and then nothing changes |
| StoreLaws.InvalidatedAs | src/fsf/production/store.py:783-801 | affected tasks are as new under a higher number with their inputs counted again, their last attempts are marked, the forecast is void, and nothing else changes |
| StoreLaws.SupersededForever | src/fsf/production/store.py:563-569 | over every run a superseded request never holds again, so nobody sends, leases, reports, accepts or rejects by it |
| StoreLaws.CancelMarkedWhen | src/fsf/production/store.py:563-582 | asking for a stop is noted on a request in force and changes nothing else |
| StoreLaws.ForecastWhen | src/fsf/production/store.py:642-650 | a forecast in range replaces the one on record, affordable when it fits what is left |
| StoreLaws.MarksOnly | src/fsf/production/store_runner.py:107-135 | waiting for a repair round marks one row, and waking turns the marks of one execution into rejections |
| StoreLaws.NewStore | src/fsf/production/store.py:257-309 | a new store has nothing paused, revoked or attempted, and every task waits for all its parents |
| Store.ProductionStore.Claim | src/fsf/production/store.py:458-528 | the method does exactly the specified transaction: the same refusals in the same order, the same new tables, and the invariant |
| Store.ProductionStore.MarkSending | src/fsf/production/store.py:537-548 | fence, activity, lease, then the one compare-and-set from "prepared" to "sending" |
| Store.ProductionStore.RenewPrepared | src/fsf/production/store.py:550-561 | only the owner of an unsent intent gets a new lease, and nothing else changes |
| Store.ProductionStore.Observe | src/fsf/production/store.py:598-613 | finished attempts accept only a repeated report; others take the reported status |
| Store.ProductionStore.Settle | src/fsf/production/store.py:615-640 | a bill within its worst case moves the two totals by the difference, once |
| Store.ProductionStore.RecordForecast | src/fsf/production/store.py:642-650 | stores the remainder with the current cost basis |
| Store.ProductionStore.RemainingForecast | src/fsf/production/store.py:803-818 | the accumulated sum is the worst case of all unreserved attempts, refused once it passes the budget |
| Store.ProductionStore.AcceptResult | src/fsf/production/store.py:652-690 | the file's digest, seal and verdict, fence, publication intent and quality result where the driver is bound to a quality policy, policy and status decide in that order; row, children and waiting repairs are updated together |
| Store.ProductionStore.RejectResult | src/fsf/production/store.py:692-705 | a named artifact must be the one the evidence is about, and only a produced attempt is rejected, with sealed rejecting evidence |
| Store.ProductionStore.CancelObserved | src/fsf/production/store.py:571-582 | the mark, then for a confirmed stop the observation and the unknown fee |
| Store.ProductionStore.Affected | src/fsf/production/store.py:773-782 | the deque sweep ends with exactly the tasks reachable from the changed ones |
| Store.ProductionStore.Invalidate | src/fsf/production/store.py:771-801 | all of the closure is reopened and recounted, or nothing when any of it is unfinished |
| Store.ProductionStore.NextReady | src/fsf/production/store.py:418-431 | one probe per status gives the ready task with the smallest ordinal, or nothing exactly when there is none |
| Store.ProductionStore.Check | src/fsf/production/store.py:725-763 | the loops compare every total, every task row, its document and every accepted artifact's digest with what they recompute |
| StoreRunner.ClaimUsesSlot | src/fsf/production/store.py:471-474 | every claim uses up one of the three attempts of its task |
| StoreRunner.StepCloser | src/fsf/production/store_runner.py:102-219 | a pass of the loop that goes on is lexicographically closer to its end: attempts left, unaccepted tasks, live attempts, unpolled ordinals, claimable rows |
| StoreRunner.StopAside | src/fsf/production/store_runner.py:14-46 | a cancellation arriving between two transactions either leaves the task rows alone or ends a live attempt, so it cannot keep the loop going |
| StoreRunner.CheckInputs | src/fsf/production/store_runner.py:48-64 | every parent has accepted evidence and each is looked at again: a published one against its intent and file, another against the driver's report and artifact; the first that does not confirm it decides the error |
| StoreRunner.Obtain | src/fsf/production/store_runner.py:129-142 | claim; wait for the repair round; or record a forecast and claim again |
| StoreRunner.MarkAndSubmit | src/fsf/production/store_runner.py:166-172 | the provider gets the request at most once, after the sending mark is committed; an error is recorded as unknown |
| StoreRunner.Advance | src/fsf/production/store_runner.py:145-219 | a publication begun earlier goes on without asking the provider; otherwise an unsent request is sent once and a sent one only observed, judged by the quality gate and published first where there is one; an iteration that goes on leaves the attempt running or finished |
| StoreRunner.Reconcile | src/fsf/production/store_runner.py:176-219 | an iteration that goes on leaves the attempt as the provider's last answer says, its fee billed or unknown, and a produced result as it was judged |
| StoreRunner.Judge | src/fsf/production/store_runner.py:188-219 | a result is accepted or rejected only after a look under the plan's policy, with that look's report, or under a quality gate with the gate's own accepting result for this request |
| StoreRunner.RunBatch | src/fsf/production/store_runner.py:99-219 | the work loop ends without its deadline, whatever other processes cancel, bill, pause or revoke between its transactions; no request is submitted twice, and none before, in this batch, each of its inputs was looked at again and confirmed; a request that leaves "prepared" meanwhile was submitted, or its stop was confirmed first; and when the loop rests, nothing of the execution could be worked on |
| StoreRunner.QuietMeansWaiting | src/fsf/production/store_runner.py:110-120 | in an acyclic plan resting with unaccepted work means that some task waits for its repair round or for a provider already polled |
| Verification.Sweeps.Record | src/fsf/production/store_runner.py:263-269 | an item is inserted only at the revision the sweep started from, and never collides with an earlier one |
| Verification.Sweeps.Page | src/fsf/production/store_runner.py:237-269 | rows read before a change are never recorded after it |
| Verification.Sweeps.Resume | src/fsf/production/store_runner.py:223-235 | a sweep is resumed only for the same revision and driver, and delivery starts one without items |
| Verification.Sweeps.Sweep | src/fsf/production/store_runner.py:221-270 | `machine_accepted` means one run holds exactly one item per task, each the accepted evidence of the revision that is current at that moment; execution changes at any point included |
| Verification.Sweeps.Change | src/fsf/production/store.py:351-361 | an execution change takes every sweep in progress out of use |
| Verification.OneMore | src/fsf/production/store_runner.py:266-269 | recording a row extends its own run and leaves all others as they were |
| LedgerBook.ReserveKeeps | src/fsf/production/ledger.py:88-155 | a reservation keeps every recomputed sum inside its limit, slots apart and the forecast current |
| LedgerBook.ReconcileKeeps | src/fsf/production/ledger.py:157-179 | so does a reconciliation |
| LedgerBook.AdvanceKeeps | src/fsf/production/ledger.py:226-247 | so does opening a repair round |
| LedgerLaws.ReservedWhen | src/fsf/production/ledger.py:88-155 | a new reservation is granted exactly for well-formed, authorized work in scope on a free slot that fits the recomputed sums, and from the threshold on only for essential work that a forecast allows for |
| LedgerLaws.ReservedAgain | src/fsf/production/ledger.py:108-114 | asking again for the very same thing is the same reservation, and for anything else a conflict |
| LedgerLaws.ReserveRefusals | src/fsf/production/ledger.py:115-141 | the first thing that stands against a reservation is its answer |
| LedgerLaws.ReconciledWhen | src/fsf/production/ledger.py:157-179 | a bill within the worst case settles once; without one an unsettled fee is unknown and its worst case stays held |
| LedgerLaws.ForecastWhen | src/fsf/production/ledger.py:203-219 | a forecast of this plan in range replaces the one on record |
| LedgerLaws.AdvancedWhen | src/fsf/production/ledger.py:226-247 | a shot's round moves on by one exactly when it is the one expected, not the last, and something was reserved in it |
| LedgerLaws.AdvanceRefusals | src/fsf/production/ledger.py:226-247 | what stands first against a new round is the answer |
| LedgerLaws.EntryAdds | src/fsf/production/ledger.py:65-68 | one reservation more adds its bill, or its worst case while it has none, to the whole and to its own route alone, and its worst case to the unknown while its fee is |
| Ledger.BudgetLedger.Reserve | src/fsf/production/ledger.py:88-155 | the method recomputes its sums from all reservations and does exactly the specified thing |
| Ledger.BudgetLedger.Reconcile | src/fsf/production/ledger.py:157-179 | unknown fees keep their worst case; a bill within it replaces it |
| Ledger.BudgetLedger.RecordForecast | src/fsf/production/ledger.py:203-219 | the forecast is bound to the costs of every reservation |
| Ledger.BudgetLedger.AdvanceRepairRound | src/fsf/production/ledger.py:226-247 | compare-and-set of a shot's round, refused when the round is unused or the last |
| Ledger.StatusForetells | src/fsf/production/ledger.py:181-201 | with scope, route and frames in order, the status allows exactly what the next reservation is granted |
| Ledger.UnknownIsUsed | src/fsf/production/ledger.py:196-201 | what is held for unknown fees is part of what is used |
| LedgerRefinement.MoneyAgrees | src/fsf/production/store.py:492-508 | the cached admission test gives the same verdict for the same reason as the ledger recomputing everything |
| LedgerRefinement.ClaimRefinesReserve | src/fsf/production/store.py:492-526 | for a ready task the store grants a claim exactly when the ledger, its round opened, grants the reservation, and then stands for the ledger's new book |
| LedgerRefinement.SettleRefinesReconcile | src/fsf/production/store.py:615-640 | `settle` is `reconcile` on the book, with the same refusals |
| LedgerRefinement.ForecastRefinesRecord | src/fsf/production/store.py:642-650 | `forecast` is `record_forecast` on the book, unless a sum leaves the integer range |
| LedgerRefinement.BookKept | src/fsf/production/ledger.py:106-155 | the book of every reachable store is one the ledger itself could keep |
| PoolSafety.StepKeeps | src/fsf/production/resource_pool.py:83-309 | every operation, also one that crashes between history and state, keeps memory, slots, exclusivity, live residents and recorded stops in order |
| PoolSafety.EveryRunSafe | src/fsf/production/resource_pool.py:83-309 | hence every reachable state is safe, whatever clocks, probes and stop observations say |
| PoolSafety.RecordedStopsComplete | src/fsf/production/resource_pool.py:86-97 | every durably recorded stop can be completed, so expiry never reports an integrity error |
| PoolSafety.AdmittedAtMostOnce | src/fsf/production/resource_pool.py:178-219 | over any run at most one call makes a claim of each request id, and none after it was claimed, finished or cancelled |
| PoolSafety.AdmissionIsAClaim | src/fsf/production/resource_pool.py:178-219 | a new claim appears in the state exactly when a call admits a waiting ticket, on the device chosen by the scan, for a request without history |
| PoolSafety.AdmittedSafe | src/fsf/production/resource_pool.py:202-219 | a granted claim fits its device: memory, slots, and exclusivity in both directions |
| PoolSafety.OvertakingBounded | src/fsf/production/resource_pool.py:191-201 | over any run a request is overtaken on its eligible devices, outside model conflicts, at most `max_bypasses` times |
| PoolSafety.FittingNotOvertaken | src/fsf/production/resource_pool.py:197-200 | whenever a ticket is overtaken on a device, it did not fit there |
| PoolSafety.OldestIsAdmitted | src/fsf/production/resource_pool.py:191-201 | the oldest waiting ticket is admitted whenever it fits |
| PoolSafety.FairnessScanNeverViolates | src/fsf/production/resource_pool.py:193-198 | the memory-violation error cannot interrupt the fairness scan |
| PoolSafety.ExpiredSafe | src/fsf/production/resource_pool.py:83-101 | expiry, lapsing leases included, keeps every one of these |
| PoolLaws.NothingFreedUnstopped | src/fsf/production/resource_pool.py:83-309 | in every call a claim leaves only with its confirmed stop or a record of one, a resident only with its confirmed stop and no claim left on it, a ticket only once recorded; records are final and each new one is of a confirmed stop or of a cancelled waiting request |
| PoolLaws.ReleasedWasStopped | src/fsf/production/resource_pool.py:251-275 | over every run each release on record was confirmed stopped in a call of the run, for that claim |
| PoolLaws.GoneWasStopped | src/fsf/production/resource_pool.py:251-275 | over every run a claim that is gone is on record as released and was confirmed stopped |
| PoolLaws.EvictedWasStopped | src/fsf/production/resource_pool.py:289-297 | over every run a resident that is gone was evicted on a confirmed stop |
| PoolLaws.IdentitiesStay | src/fsf/production/resource_pool.py:83-309 | no call changes anything of a claim or resident but its lease, or of a ticket but how often it was overtaken |
| PoolLaws.LeasesLapse | src/fsf/production/resource_pool.py:98-101 | a lease becomes unknown exactly when it has run out by the clock of a call that writes, never comes back, and is extended only by its owner in time, for an allowed period |
| PoolLaws.FitDecides | src/fsf/production/resource_pool.py:151-176 | the scan ends with the first device that takes the ticket or is in error; a device takes it when its claims and residents are certain, it has a slot and room for the model, and what is promised and asked fits the memory authorized and observed |
| PoolLaws.AdmittedAs | src/fsf/production/resource_pool.py:202-219 | an admission's claim is what its ticket asked for, under a number above all before it, on a device that takes it and a certain resident that outlasts it |
| PoolLaws.AdmittedWhen | src/fsf/production/resource_pool.py:178-219 | a waiting ticket is admitted exactly when the pool is authorized, a device takes it, and no older ticket fits there or has run out of patience |
| PoolLaws.AdmitRecordsLapses | src/fsf/production/resource_pool.py:180-189 | every answer that is no failure leaves on record what has lapsed |
| PoolLaws.HoldingIsHeld | src/fsf/production/resource_pool.py:178-219 | who is told that it holds a claim holds it |
| PoolLaws.PastIsOnRecord | src/fsf/production/resource_pool.py:178-190 | whoever is told that it is past is, by the very record handed back |
| PoolLaws.RefusedStillWaits | src/fsf/production/resource_pool.py:178-219 | whoever is told to wait, or that another goes first, still waits and holds nothing |
| PoolLaws.AdmittedAgain | src/fsf/production/resource_pool.py:182-187 | a request already claimed or finished is answered with its claim or its record |
| PoolLaws.AdmitRefusals | src/fsf/production/resource_pool.py:178-219 | a failed admission changes nothing |
| PoolLaws.EnqueuedWhen | src/fsf/production/resource_pool.py:111-126 | a request enters the queue exactly when it is well-formed, could ever fit, is new and the queue has room; behind all others |
| PoolLaws.EnqueueAnswers | src/fsf/production/resource_pool.py:111-122 | a repeated enqueue answers with what is known, a changed one is refused, and a full queue takes nobody new |
| PoolLaws.ReleasedWhen | src/fsf/production/resource_pool.py:251-275 | the owner's release with a confirmed stop frees and records the claim; without one, or by another, nothing happens |
| PoolLaws.ReleasedAgain | src/fsf/production/resource_pool.py:251-266 | a repeated release is answered from the record, to the claim's own token only |
| PoolLaws.StoppedBetween | src/fsf/production/resource_pool.py:270-275 | a call that stops between its two writes has written the record and left the state |
| PoolLaws.CancelledWhen | src/fsf/production/resource_pool.py:277-287 | only a waiting request is cancelled, and a finished one is answered from its record |
| PoolLaws.EvictedWhen | src/fsf/production/resource_pool.py:289-297 | a known resident leaves exactly when no claim is on it and its stop is confirmed |
| PoolLaws.RenewedWhen | src/fsf/production/resource_pool.py:229-239 | only the owner of a running claim in time renews it; one in doubt must be reconciled, and the doubt is recorded |
| PoolLaws.ResidentRenewedWhen | src/fsf/production/resource_pool.py:299-309 | a certain resident's lease is extended by an allowed period, under its own number |
| ResourcePool.Pool.Expire | src/fsf/production/resource_pool.py:83-101 | completes recorded stops ticket by ticket and lets leases lapse to unknown |
| ResourcePool.Pool.Admit | src/fsf/production/resource_pool.py:178-219 | the device scan, the fairness scan and the claim are the specified admission |
| ResourcePool.Pool.Enqueue | src/fsf/production/resource_pool.py:111-126 | a repeated ticket is the same ticket, a changed one is refused, and the queue is bounded |
| ResourcePool.Pool.Renew | src/fsf/production/resource_pool.py:229-239 | only a running claim on a certain resident is extended |
| ResourcePool.Pool.Release | src/fsf/production/resource_pool.py:251-275 | the stop is recorded first; a crash in between loses nothing, and repeating is safe |
| ResourcePool.Pool.CancelQueued | src/fsf/production/resource_pool.py:277-287 | a waiting ticket leaves for good, history first |
| ResourcePool.Pool.Evict | src/fsf/production/resource_pool.py:289-297 | a resident without claims leaves on a confirmed stop |
| ResourcePool.Pool.RenewResident | src/fsf/production/resource_pool.py:299-309 | a certain resident's lease only grows |
| Ducking.BuildDuckingEnvelope | src/fsf/production/speech.py:225-292 | the sweep yields, at every sample, the minimum of 0 and every event's clipped attack, hold or release gain; its pieces tile the timeline, validate, and no two neighbours lie on one line; inputs are refused in the source's order, and only the operation count can stop it |
| Ducking.BuildThenRead | src/fsf/production/speech.py:225-331 | reading a built envelope at a sample gives that minimum, within [-attenuation, 0] |
| Ducking.TargetIsMinimum | src/fsf/production/speech.py:251-265 | the reference value is attained by an event or is 0, lies below every event, and stays within the attenuation |
| Ducking.DialogueFullyDucked | src/fsf/production/speech.py:262 | a dialogue sample gets exactly the full attenuation, however events overlap |
| DuckingLaws.AttackFalls | src/fsf/production/speech.py:248-251 | the gain falls to the full attenuation in equal steps over the attack before the dialogue |
| DuckingLaws.ReleaseRises | src/fsf/production/speech.py:252-254 | it rises back in equal steps over the release after it |
| DuckingLaws.HoldsAndRests | src/fsf/production/speech.py:248-254 | dialogue is ducked in full, and away from the event and its ramps nothing is |
| DuckingLaws.InputAnswers | src/fsf/production/speech.py:228-247 | inputs are accepted exactly when settings are in range and every event is new, in the film and not on the ducked track; otherwise the first that is not decides the error |
| DuckingLaws.EnvelopeMeans | src/fsf/production/speech.py:295-317 | an envelope passes exactly when its pieces lie end to end over the whole timeline and every gain is between the full attenuation and nothing |
| DuckingLaws.PieceSteps | src/fsf/production/speech.py:320-331 | between its ends a piece changes in equal steps |
| DuckingLaws.GainOfPiece | src/fsf/production/speech.py:320-331 | what an envelope says at a sample is what the one piece with that sample says |
| DuckingLaws.IntervalCosts | src/fsf/production/speech.py:265-270 | each elementary interval costs the square of the number of its lines, base line included |
| Ducking.SpansMatchEvents | src/fsf/production/speech.py:243-264 | the ramp lines filed for the sweep are exactly the events' gains |
| Ducking.CrossingBetween | src/fsf/production/speech.py:271-278 | two lines that swap order cross strictly between, and the rounded-up crossing still separates them |
| Ducking.WinnerStays | src/fsf/production/speech.py:279-282 | between cuts the line that is lowest at the first sample is lowest throughout |
| Ducking.InterpolationExact | src/fsf/production/speech.py:282-286 | a piece interpolated between its end values is the line it came from |
| Ducking.CostUnique | src/fsf/production/speech.py:265-270 | the operation count depends on the input alone |
| Ducking.ValidateDuckingEnvelope | src/fsf/production/speech.py:295-317 | accepts exactly the envelopes whose pieces tile the timeline with gains in range |
| Ducking.DuckingGainAt | src/fsf/production/speech.py:320-331 | finds the one piece that contains the sample and interpolates in it |
| Segments.MapWindows | src/fsf/production/segments.py:34-55 | succeeds exactly when the overlap is usable and the tail needs no forbidden padding, with the right error otherwise, and yields the windows of a closed form |
| Segments.MappedWhen | src/fsf/production/segments.py:34-49 | a film is mapped exactly when the overlap is usable and, where padding is not allowed, what the last window holds has a legal length |
| Segments.Neighbours | src/fsf/production/segments.py:38-54 | cores touch, contexts reach back by the overlap, all but the last window are full, and a continued window depends on the one before |
| Segments.OneCorePerFrame | src/fsf/production/segments.py:38-54 | the cores tile the film: every frame is in exactly one |
| Segments.LegalLengths | src/fsf/production/segments.py:41-51 | every model length is 1 modulo the step and within the limit, and only the last window is padded |
| Segments.CountReaches | src/fsf/production/segments.py:38-44 | the number of windows is the smallest that reaches the end |
| Segments.MappingValidates | src/fsf/production/segments.py:58-75 | whatever `map_windows` produces passes `validate_segments` |
| Segments.ValidateSegments | src/fsf/production/segments.py:58-75 | accepts exactly consecutive intervals with unique ids, earlier dependencies and matching totals |
| Segments.ValidMeans | src/fsf/production/segments.py:58-75 | a plan passes exactly when its windows lie end to end from 0 to the end of the film, each within its context, under new ids, waiting only for earlier ones, and the frames add up |
| Segments.GeneratedAdds | src/fsf/production/segments.py:67-73 | the generated frames of a plan are those of its windows, one more window adding its own |
| Segments.PredecessorHolds | src/fsf/production/sequence_checkpoints.py:41-48 | the predecessor of a continued window always holds the initialization frames the receipt looks up, and none of them is padding |
| Segments.InitializationOf | src/fsf/production/sequence_checkpoints.py:41-48 | the lookup succeeds exactly when the frames are there, and returns each with its global number |
| Dependencies.AffectedTasks | src/fsf/production/segments.py:78-110 | raises exactly for an unknown change, an undeclared parent or a cycle; otherwise returns exactly what the changed tasks reach |
| Dependencies.Acyclic | src/fsf/production/segments.py:83-102 | counting visited tasks decides whether there is a cycle |
| Dependencies.CountDecides | src/fsf/production/segments.py:101-102 | all visited means ranked; some unvisited means each of those waits for another |
| Workflow.TaskFlow.Claim | src/fsf/production/workflow.py:56-82 | a claim needs accepted inputs, a finished or invalidated last attempt and fewer than three attempts |
| Workflow.TaskFlow.Record | src/fsf/production/workflow.py:84-117 | fence, transition table and evidence decide; accepted evidence is the verified one |
| Workflow.TaskFlow.Invalidate | src/fsf/production/workflow.py:119-132 | all of the closure is reopened, or nothing when any of it is unfinished |
| Workflow.InvalidateKeeps | src/fsf/production/workflow.py:119-132 | reopening a closed set keeps "accepted implies all inputs accepted" |
| Workflow.OneTask | src/fsf/production/workflow.py:84-117 | recording keeps it too: live attempts rest on accepted inputs |
| Workflow.StaleIsFenced | src/fsf/production/workflow.py:95-102 | nobody can record anything for a request older than the last claim or invalidation |
| WorkflowLaws.ClaimedWhen | src/fsf/production/workflow.py:56-82 | a claim needs a known task with accepted inputs, no attempt under way and fewer than three attempts; the answer says which is missing |
| WorkflowLaws.RecordedWhen | src/fsf/production/workflow.py:84-113 | a status needs the current number, the last request, a step the attempt may take from where it stands, and proof where it claims success |
| WorkflowLaws.ClaimedAs | src/fsf/production/workflow.py:72-82 | a claim adds one attempt under the next number, leased as asked |
| WorkflowLaws.RecordedAs | src/fsf/production/workflow.py:107-117 | recording changes the last attempt's status and evidence, and the task's result only by acceptance |
| WorkflowLaws.BusyWhen | src/fsf/production/workflow.py:119-132 | unfinished is what neither came to nothing nor was accepted |
| WorkflowLaws.ReopenedAs | src/fsf/production/workflow.py:119-132 | reopening takes the result back under a new number and marks the last attempt; nothing else changes |
| BatchRunner.RunTask | src/fsf/production/runner.py:63-136 | one task of a JSON batch, with a crash possible after every durable call: workflow, ledger and provider stay linked, and a run that was cut off can be repeated |
| BatchRunner.Send | src/fsf/production/runner.py:96-110 | submitted is durable before the provider is called; the request reaches it once |
| BatchRunner.RoundFor | src/fsf/production/runner.py:68-80 | the shot's round moves on only when nothing else of the shot is live, also when the process crashes right after |
| BatchRunner.FirstSend | src/fsf/production/runner.py:66-67 | an attempt still reserved was never sent |
| BatchRunner.SubmittedIsReserved | src/fsf/production/runner.py:91-110 | everything the provider was given is reserved in the ledger |
| BatchRunner.SubmittedIsHeld | src/fsf/production/runner.py:91-136 | the worst cases of everything submitted and not billed, added up, are part of what is used |
| Publication.Publisher.Intend | src/fsf/production/publication.py:48-56 | the intent is written once, under the fence and for a finished result |
| Publication.Publisher.Place | src/fsf/production/publication.py:57-77 | a copy appears under its final name only with the digest of its intent |
| Publication.Publisher.StageAcceptance | src/fsf/production/publication.py:46-79 | a crash at any point leaves a state from which a later call goes on with the first intent; acceptance comes last, with the receipts of that intent; without a crash only a changed source or the store can refuse |
| Publication.Publisher.VerifyPublication | src/fsf/production/publication.py:82-90 | passes exactly when the report names this request, is its intent's, and is about the file in place |
| Publication.AcceptedVerifies | src/fsf/production/publication.py:82-90 | what was accepted can be verified again: its evidence is the intent's and its file is in place |
| Artifacts.ChunkRoot.Split | src/fsf/production/artifacts.py:83-112 | a source of legal size that did not change while it was read splits into a valid, sound manifest with all chunks stored, and a changed one is refused as such; no interrupted run leaves a dishonest chunk |
| Artifacts.ValidateManifest | src/fsf/production/artifacts.py:60-80 | accepts exactly contiguous chunks of legal sizes that add up |
| Artifacts.ManifestMeans | src/fsf/production/artifacts.py:60-80 | a manifest passes exactly when it names 1 to 8192 chunks of 1 byte to 8 MiB, each where the one before ends, up to a size of at most 64 GiB |
| Artifacts.Workspace.Resume | src/fsf/production/artifacts.py:142-156 | a checkpoint of k chunks is believed only if the partial file starts with those chunks, and a recoverable state always passes |
| Artifacts.Workspace.Append | src/fsf/production/artifacts.py:115-127 | a crash at any write leaves a recoverable state |
| Artifacts.Workspace.Assemble | src/fsf/production/artifacts.py:130-166 | success means the target has the manifest's identity; only a crash can keep a recoverable assembly from it |
| Artifacts.Workspace.AssembleThrough | src/fsf/production/artifacts.py:130-166 | interrupted any number of times and run again, assembly ends with exactly the artifact's bytes |
| Artifacts.RoundTrip | src/fsf/production/artifacts.py:83-166 | split and assemble, each through any number of crashes, give back the same bytes for every legal size |
| Artifacts.SplitManifest | src/fsf/production/artifacts.py:107-110 | what was split validates exactly when its size is legal |
| EditingRuns.OpMeaning | src/fsf/core/editing.py:191-221 | on the film as source and frame pairs: rename and split change nothing, trim replaces one block, remove drops it, duplicate repeats it in place |
| EditingRuns.ReorderMeaning | src/fsf/core/editing.py:152-157 | an accepted reorder has the same clips, each once, in the named order |
| Editing.OpKeepsIdentity | src/fsf/core/editing.py:151-221 | every operation keeps ids unique, retired ids out of use, and lineage closed and acyclic |
| Editing.RetiredForGood | src/fsf/core/editing.py:149-206 | a retired clip id is never current again, whatever operations follow |
| Editing.StillAcyclic | src/fsf/core/editing.py:79-94 | copies that name only older ids cannot close a circle of lineage |
| EditingLaws.OpOnClip | src/fsf/core/editing.py:191-221 | an operation on a clip that is there changes just that clip: a copy or half shows the same source and descends from the clip and all its ancestors; refused exactly for a used id or a cut outside the clip |
| EditingLaws.ShapedWhen | src/fsf/core/editing.py:141-142 | the schema lets through a split into two different clips, a reorder that names no clip twice, and everything else |
| EditingLaws.OpOnNoClip | src/fsf/core/editing.py:186-189 | an operation on a clip that is not there is refused |
| EditingLaws.PatchSteps | src/fsf/core/editing.py:150-221 | a patch is its operations one after the other, the first refusal being its own |
| EditingLaws.ReorderAnswers | src/fsf/core/editing.py:152-157 | a reorder is refused unless it names exactly the current clips, and then only changes their order |
| EditingLaws.EditMeans | src/fsf/core/editing.py:60-94 | an edit passes exactly when its clips play known sources under distinct ids not retired, descend from known ids and never from themselves, with no circle of descent |
| EditingLaws.ChildMadeOf | src/fsf/core/editing.py:195-213 | a copy or half shows the same frames of the same source under the new id and descends from the clip it was made of and from all of its ancestors, once each |
| EditingRuns.LineageAcyclic | src/fsf/core/editing.py:79-94 | the depth-first visit fails exactly when lineage has a cycle |
| EditingRuns.ValidateEdit | src/fsf/core/editing.py:60-94 | accepts exactly playable clips with sound identity |
| EditingRuns.ApplyPatch | src/fsf/core/editing.py:138-226 | all operations or none; refused only by an operation or by clips that do not play, never by the final identity checks |
| EditingRuns.LocateFrame | src/fsf/core/editing.py:268-289 | exactly one clip holds each frame, and it holds that element of the film |
| AudioLayout.FrameSampleMonotone | src/fsf/core/audio_edit.py:19-20 | rounding half to even keeps frame positions in order for every clock |
| AudioLayout.Nearest | src/fsf/core/audio_edit.py:19-20 | rounding is within half a unit |
| AudioLayout.FrameIsNearest | src/fsf/core/audio_edit.py:19-20 | a frame begins at the sample nearest to its exact time, the even one of two equally near |
| AudioLayout.MoveSafeIffWhole | src/fsf/core/audio_edit.py:19-52 | moving a clip never makes frame positions that were clear overlap exactly when a frame is a whole number of samples |
| AudioEvents.EventLayout | src/fsf/core/audio_edit.py:23-52 | the loops compute the specified span of every event, or the first event's error |
| AudioEvents.TimelineEvent | src/fsf/core/audio_edit.py:36-52 | an event on the timeline begins at its frame's sample and ends with its content, or with the film where the tail is silence; refused as stale, or exactly when it has no room |
| AudioEvents.ClipEvent | src/fsf/core/audio_edit.py:36-52 | an event of a clip begins at its frame's sample in the film and ends with its content, or with the clip where the tail is silence; refused exactly when it begins past the clip or has no room in it |
| AudioEvents.NoClipEvent | src/fsf/core/audio_edit.py:37-40 | an event of a clip that is not in the edit is refused |
| AudioEvents.DifferentClipsClear | src/fsf/core/audio_edit.py:23-52 | events of different clips never overlap, for any clock and any clip order |
| AudioEvents.ReorderStaysClear | src/fsf/core/audio_edit.py:23-52 | with whole samples a frame, a reorder keeps every pair of events clear and everything that fitted still fits |
| AudioEvents.ReorderSafeIffWhole | src/fsf/core/audio_edit.py:23-52 | over all edits, reorders and pairs of events, a reorder never makes clear events overlap exactly when a frame is a whole number of samples; for every other clock two clips and two events are constructed that fit before and after, just meet before, and overlap after |
| AudioEvents.NtscReorder | src/fsf/core/audio_edit.py:23-52 | the instance at 30000/1001 frames a second: spans that meet at sample 1602 overlap once a clip of one frame stands before theirs |
| AudioEvents.TrackClear | src/fsf/core/audio_edit.py:107-110 | sorting and comparing neighbours refuses exactly the tracks where some two spans overlap |
| WorldMotion.ValidateMotions | src/fsf/production/memory.py:133-144 | accepts exactly motions in order, with time for every edge, each from where the last one ended |
| WorldLaws.MotionsMean | src/fsf/production/memory.py:133-144 | motions pass exactly when each begins within the film and after the one before has ended, where that one ended, with a frame for every anchor |
| WorldMotion.PositionAt | src/fsf/production/memory.py:169-177 | the loop over the motions gives the position of the last one begun |
| WorldMotion.MotionEnds | src/fsf/production/memory.py:171-177 | at its start frame a motion is at its first anchor, and from its last frame until the next motion at its last |
| WorldMotion.AtMostOneEdge | src/fsf/production/memory.py:133-177 | from each frame to the next an entity goes at most one edge along the route of the motion under way, and stays where it is when none is, also where a motion begins |
| WorldMotion.InsideEdge | src/fsf/production/memory.py:171-177 | inside an edge: after d of L frames of a route of n anchors, with k edges behind it, an entity has gone d(n-1)-kL of L equal steps from anchor k to anchor k+1, in every coordinate |
| WorldMotion.OnSomeEdge | src/fsf/production/memory.py:171-177 | every frame of a motion is on some edge of its route |
| WorldMotion.EqualSteps | src/fsf/production/memory.py:171-177 | so on one edge it goes equally far in every frame |
| WorldFacts.Walk | src/fsf/production/memory.py:60-64 | a walk with a set of seen nodes fails exactly on a circle |
| WorldFacts.Attachments | src/fsf/production/memory.py:49-65 | accepts exactly well-formed facts whose attachment links end, and returns those links |
| WorldFacts.Replay | src/fsf/production/memory.py:34-46 | the loop gives the facts after the due events, or nothing when one of them conflicts |
| WorldLaws.ReplayedWhen | src/fsf/production/memory.py:34-46 | replay succeeds exactly when every due change applies and leaves no bad state on the way |
| WorldLaws.ValueAtFrame | src/fsf/production/memory.py:34-46 | at every frame a fact holds what a due event last gave it, or what it held from the start; a change applies only to a changeable fact that holds what it was declared against |
| WorldLaws.FactMeans | src/fsf/production/memory.py:49-58 | which values each kind of fact may have: an owner or attachment is an entity or none, visibility a flag, an offset a vector, and a path offset never changes |
| WorldFacts.ReplayNeverFails | src/fsf/production/memory.py:34-46 | a world whose replay succeeds to the last frame can be replayed to every frame |
| WorldFacts.AttachAll | src/fsf/production/memory.py:183-195 | in any iteration order each entity ends at its root's position plus the offsets of its chain, refused exactly when an attached entity is moving |
| WorldFacts.HomeUnique | src/fsf/production/memory.py:185-195 | there is only one such position |
| WorldState.StateAt | src/fsf/production/memory.py:165-196 | a validated world can be read at every one of its frames: the facts are those after the due events; an attached entity stands at its offset from what it is attached to, any other at its path offset from its own way, coordinate by coordinate; the one refusal is an attached entity that moves by itself |
| WorldState.ReadsMean | src/fsf/production/memory.py:49-65 | the links and offsets that place an entity are those its own facts state: attached to what the fact names or not at all, and no offset where no fact gives one |
| WorldState.InMotionDivides | src/fsf/production/memory.py:167-177 | in a motion the entity divides the edge it is on evenly, whatever its other motions and those of others |
| WorldState.AfterMotion | src/fsf/production/memory.py:171-173 | after a motion and until its next it stays at the last anchor |
| WorldState.BeforeMotions | src/fsf/production/memory.py:168-170 | before its first motion it is at its initial anchor |

## Left out

- SQLite itself, file locks, synchronisation, link and path checks, and the JSON form of documents.
- The event log and the store's global revision; an execution's revision is in `Verification` only, where every step that
  changes rows bumps it.
- What the quality gate assesses: its result is undetermined. Whether a publication intent is recorded is undetermined in
  `StoreRunner` and modelled in `Publication`. The artifact file is its digest at the time of the call.
- `link_allocation`, `bind_driver`, backup, export, the registry and migration of a store.
- `run_batch` around `_run_task`, with its progress file, and `_remaining_forecast`: the remainder recorded by
  `BatchRunner.Fund` is arbitrary.
- Store.ProductionStore.Invalidate: the tasks of the closure are reopened after the check that none is unfinished, where the
  source interleaves the two and rolls back; the committed result is the same.
- StoreRunner.OtherStep: only one runner works on a store, as the parent lock ensures, and other processes do not claim,
  accept, invalidate or record forecasts meanwhile.
- Verification.Sweeps.Sweep: the check before it that no task is unaccepted is not needed and not modelled.
- The ledger's round history, creation times and seals; its plan digest is an identifier.
- LedgerRefinement.ClaimRefinesReserve: one execution per authorization, as version 2 budgets demand.
- Malformed probe answers of the pool, which are refused before anything is read from them.
- `transfer_chunks`, which copies chunks one by one under the same checks.
- EditingRuns.ValidateEdit: covers clips, ids and lineage; subtitles, cues, timing anchors, audio settings, labels and
  revisions of an edit are record fields of their own and are left out.
- EditingRuns.ApplyPatch: the clip operations; those on subtitles and audio, and the comparison of the base revision and
  digest before all of them, are left out.
- Gains, regions, sources and normalisation groups of an audio mix.
- WorldState.StateAt: positions are exact; the rounding to a float, and the refusal when it overflows, are left out.
- Identity of assets, chapters and actors of a world.
- Delivery, media, FFmpeg, remote transport, drivers, consistency and quality records, migration and the command line: they are
  record validation and plumbing around the parts modelled here.
