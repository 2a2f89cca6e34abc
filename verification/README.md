# Verification of the Harnessix release tooling

This project models the parts of Harnessix's `scripts/` that must not be wrong and proves what they promise.

- **The provider verification budget ledger.** A file holds the requests of one paid budget period. Requests go through
  reserve, send, settle. On top sit append-only authority records: a bounded re-verification plan, one suite rebinding, a
  chain of suite candidates, task continuations, and usage reconciliations. Each freezes a prefix of the request list by
  digest, and every open and save re-validates all of them together. The model has the checkers as loops proved equal to
  declarative predicates, the owner object over a shared file, and a transition system over every interleaving of opens,
  requests, deaths and registrations with a fault possible at every save.
- **The guarded provider stream**, which wraps any event stream between one reservation and one settlement.
- **The package dependency cycle report**: the recursive component search over shared mutable state, and the search for
  data contract types through base classes.
- **The ZIP preflight**, two cursor loops over bytes.
- **The soak evidence**: the write-ordered publish with a last commit marker, the attempt record around it, and two proof
  checkers.

`dafny verify dfyconfig.toml` checks everything.

## How to read it

| files | content |
|---|---|
| `LedgerData`, `Pricing`, `Reconciliations`, `Plans`, `Bindings`, `Continuations`, `Validity` | the ledger's values and its validity, layer by layer, with the source's checking loops |
| `LedgerSteps` | what each operation does to the owner's memory and to the file |
| `AuthorityMeaning` | what a registered authority pins down |
| `RequestsKeepValidity`, `RequestsAccepted`, `ReconcileAccepted`, `RegistrationsAccepted`, `RegistrationsReturn` | guarded operations always produce acceptable data; exact acceptance conditions; what a call wrote when it returns |
| `LedgerRuns`, `LedgerSafety`, `LedgerMoney`, `Reservations`, `Availability` | the transition system and safety over whole runs; who may request, exactly |
| `LedgerUpgrades` | runs from an empty file that take every accepted schema upgrade |
| `ShadowedPeriod` | the one way an owner can work on an unchecked period |
| `BudgetLedger` | the owner class and the five registrations, proved against `LedgerSteps` |
| `GuardedStream` | the guarded request |
| `Ordering`, `Digraph`, `SearchState`, `DependencyCycles`, `PublicApi` | the readability report |
| `ZipPreflight`, `ZipWriter` | the ZIP preflight, and a writer whose archives it must accept |
| `SoakEvidence`, `SoakAttempt`, `SoakArtifactProof`, `SoakContextProof` | soak runs, attempts and proof checkers |

Modelling decisions that hold throughout:

- Money is an unbounded integer number of 10^-18 yuan. UUIDs and SHA-256 digests are natural numbers.
- The digest functions are a parameter (`Hash`, `Checks`) of which nothing is assumed. No result about runs depends on
  freedom from collisions: frozen prefixes stay frozen because no operation touches them. What a digest adds, that one authority
  cannot be valid over two different pasts, is stated in `AuthorityMeaning` for injective digests.
- A ledger save takes a fault: none, before the replace, or after it. The 1 MiB file cap is a fault before the replace. Every
  evidence step (creating a directory, writing a file) may raise or die before it changed anything, with a temporary file
  left, or with its target in place; the last covers a directory sync that fails after the replace. Clock readings and new UUIDs are parameters; a repeated UUID is allowed and shown to be refused.
- The lock is the fact that a system state holds at most one owner.

Places where the code does not give what one would expect are stated with their exact conditions:

- `_validate` checks the one active period, but an owner works on the first period with its id. For an accepted ledger the two
  agree exactly when no earlier period repeats the id (`Validity.OwnIsActive`). `ShadowedPeriod.ShadowedReservation` gives an
  accepted file on which they differ and a reservation overdraws the allocation. Results about whole runs therefore start
  from a file without such a repetition, which every operation keeps.
- `read_attempt` is documented to report a hard exit as an attempt with a start record only. A death inside the write of a
  record leaves a temporary file, and then nothing reads back; nor does an attempt whose clock was stepped back, because
  `finish_attempt` never compares its time with the start and `read_attempt` does. `SoakAttempt.HiddenExactly` gives the exact
  condition on what happened, `SoakAttempt.Attempt.Scope` the one on the files, `SoakAttempt.HiddenAttempts` an input for each.
- `_preflight_zip` takes the last end signature in the file. An archive whose end record happens to contain that signature in
  its own numbers is refused, although it is well formed: without an archive comment it is accepted exactly when no such
  signature follows (`ZipWriter.PreflightWritten`). `ZipWriter.OffsetReadsAsEnd` gives such archives.
- `publish_run` can raise and leave a run that reads back: exactly when its last write raises with the marker already in place
  (`SoakEvidence.RunDirectory.Publish`). The attempt around it is then not marked failed: it
  reads back as started only, unless its body goes on to commit.

## Model

| member | source | states |
|---|---|---|
| DependencyCycles.Cycles | scripts/readability_report.py:344-385 | For every edge list the search ends and its report lists each maximal strongly connected component of at least two nodes exactly once, each sorted, the whole sorted |
| DependencyCycles.CyclesOfText | scripts/readability_report.py:345-349 | On textual edges the report is refused exactly when some edge has no arrow, and otherwise describes the graph of the split edges |
| DependencyCycles.SplitJoin | scripts/readability_report.py:341-347 | Splitting an emitted edge gives back its two packages exactly when the source name contains no arrow |
| DependencyCycles.ReportUnique | scripts/readability_report.py:344-385 | Two correct reports on edge lists with the same edges are equal, so the order of the edges cannot matter |
| DependencyCycles.BuildGraphEdges | scripts/readability_report.py:345-349 | The adjacency map has exactly the listed edges and exactly their ends as nodes |
| DependencyCycles.SortedNames | scripts/readability_report.py:364-382 | A name set becomes a sorted sequence without repetition holding exactly the set |
| Ordering.StringLeqMeans | scripts/readability_report.py:364-385 | The order of names is by code point: a prefix first, else the first difference decides |
| DependencyCycles.AllClosed | scripts/readability_report.py:382-385 | When every node is numbered and no call is open, the closed sets are all the components of the graph |
| DependencyCycles.CycleFinder.Connect | scripts/readability_report.py:358-380 | A call keeps the search invariant, numbers its node, leaves the old stack in place, and either keeps its node on the stack with a low link that a reachable stack node bears out, or closes its component |
| DependencyCycles.CycleFinder.Visit | scripts/readability_report.py:364-369 | One target visit keeps the loop invariant whether the target is new, on the stack or closed |
| DependencyCycles.CycleFinder.Leave | scripts/readability_report.py:370-380 | The end of a call keeps or closes as the low link says and lists a closed component of several nodes |
| DependencyCycles.CycleFinder.PopStack | scripts/readability_report.py:372-378 | The stack is cut at the node and the removed nodes are returned, each once |
| SearchState.PushKeeps | scripts/readability_report.py:360-363 | Numbering and pushing a node that every open call reaches keeps the search invariant |
| SearchState.LoopCall | scripts/readability_report.py:365-367 | After a nested call the minimum of both low links is again a sound low link |
| SearchState.LoopSeen | scripts/readability_report.py:368-369 | The number of a stacked target is a sound low link; a closed target changes nothing |
| SearchState.PopIsComponent | scripts/readability_report.py:370-380 | The nodes from the root of a call up the stack are one maximal strongly connected component |
| SearchState.LeaveOnStack | scripts/readability_report.py:370-371 | A smaller low link leaves every stack node still reaching an open call |
| PublicApi.Resolve | scripts/readability_report.py:260-271 | The result is the first definition on the import orbit of the name, and nothing exactly when the orbit meets none, cycles included |
| PublicApi.DataContractIsReachable | scripts/readability_report.py:273-298 | The search over simple paths answers plain reachability of a class with a listed base through resolved base classes |
| PublicApi.PathIsFound | scripts/readability_report.py:273-298 | Any path that avoids the seen set is found although no key is entered twice |
| Reconciliations.Validate | scripts/provider_usage_reconciliation.py:74-93 | The loop accepts exactly the chained records without repeated record or request, each pricing one unique unknown request within its hold |
| Reconciliations.CostsFit | scripts/provider_usage_reconciliation.py:96-143 | A reconciled id belongs to an unknown request whose hold covers the cost |
| Reconciliations.RecordsKept | scripts/provider_usage_reconciliation.py:103-144 | New requests with new ids and settled reservations disturb no record |
| Plans.Validate | scripts/provider_reverification_plan.py:209-265 | The charged cost is returned exactly when the plan is well formed, its prefix frozen, unscoped and free of reservations, its carried requests are the prefix's unknown ones, its suffix is scoped and the charge is within the maximum |
| Plans.PlanKept | scripts/provider_reverification_plan.py:219-265 | Settling reservations and appending scoped requests under the cap keeps the plan valid |
| Plans.ChargedGrows | scripts/provider_reverification_plan.py:243-262 | The charged cost of a prefix never exceeds that of the whole list |
| Bindings.ValidateChain | scripts/provider_reverification_chain.py:93-153 | The loop with its running predecessor and seen sets accepts exactly the chains whose every candidate is linked, fresh in id and suite, frozen, accounted and owner of its segment |
| Bindings.RebindingKept | scripts/provider_reverification_binding.py:42-87 | Requests carrying the binding, and settlements, keep the rebinding valid |
| Bindings.ChainKept | scripts/provider_reverification_chain.py:106-153 | Requests carrying the last candidate, and settlements, keep the whole chain valid |
| Bindings.ChainPartition | scripts/provider_reverification_chain.py:145-150 | A request carries binding k exactly when it lies in segment k, and then also its suite; requests before the first binding carry none |
| Bindings.ChainAccounts | scripts/provider_reverification_chain.py:138-144 | Along the chain the charged cost only grows, the remainder stays positive and only shrinks, and both add up to the one plan maximum |
| Bindings.IdsDiffer | scripts/provider_reverification_chain.py:111-124 | All binding ids and suites of a chain differ, and none is the plan's suite |
| Continuations.ValidateLine | scripts/provider_task_continuation.py:213-237 | The loop accepts exactly the lines in which each successor follows a record that was valid on everything before it |
| Continuations.WindowKept | scripts/provider_task_continuation.py:149-200 | Labelled requests within the limit after settled ones, and settlements, keep a window valid |
| Continuations.LineKept | scripts/provider_task_continuation.py:213-237 | Requests in the last window keep every earlier window of the line valid |
| Continuations.Block | scripts/provider_task_continuation.py:164-200 | Each record labels one contiguous block of at most one request for the first and four for the others, closed blocks are not empty, and all but the last request of a block are settled |
| Continuations.LineBound | scripts/provider_task_continuation.py:213-237 | At most 1 + 4n requests follow the first continuation of a line with n successors |
| Continuations.LabelNamesBlock | scripts/provider_task_continuation.py:199-200 | A request carries the id of record k exactly when it lies in block k |
| AuthorityMeaning.PlanFreezes | scripts/provider_reverification_plan.py:219-230 | For injective digests, two files on which one plan is valid have the same requests before it |
| AuthorityMeaning.BindingFreezes | scripts/provider_reverification_binding.py:51-87 | For injective digests, two files on which one binding is valid have the same requests before it and the same plan |
| AuthorityMeaning.LinkFreezes | scripts/provider_reverification_chain.py:93-153 | For injective digests, a candidate determines the binding before it |
| AuthorityMeaning.WindowFreezes | scripts/provider_task_continuation.py:149-200 | For injective digests, two files on which one continuation is valid have the same requests before it |
| AuthorityMeaning.RecordFreezes | scripts/provider_usage_reconciliation.py:103-144 | For injective digests, two files on which one reconciliation is valid hold the same request under its id |
| AuthorityMeaning.PlanMeans | scripts/provider_reverification_plan.py:219-260 | Before a valid plan nothing is reserved or labelled and exactly the carried requests, with their full holds, are unknown; after it every request carries the plan's labels |
| AuthorityMeaning.PlanAmounts | scripts/provider_reverification_plan.py:49-131 | Every plan version fixes its allocation and maximum, and the charge stays within it |
| AuthorityMeaning.BindingMeans | scripts/provider_reverification_binding.py:51-87 | Before a valid binding nothing is reserved and only carried requests are unknown, except under the second rolling plan |
| AuthorityMeaning.RebindingMeans | scripts/provider_reverification_binding.py:51-87 | A valid rebinding comes after the plan, replaces its suite by another, and labels exactly the requests after it |
| AuthorityMeaning.WindowMeans | scripts/provider_task_continuation.py:149-200 | Before a valid continuation nothing is reserved and exactly its carried requests are unknown; its own requests carry its id, at most one or four of them under a single-task plan |
| AuthorityMeaning.ChainMeans | scripts/provider_reverification_chain.py:93-153 | Each candidate is numbered, linked to the binding before it and takes over from its suite |
| AuthorityMeaning.LineMeans | scripts/provider_task_continuation.py:213-237 | Each successor names the record before it, and the first record is a single continuation |
| AuthorityMeaning.RecordMeans | scripts/provider_usage_reconciliation.py:103-144 | A valid reconciliation prices, at the live price, the one request of its id, unknown, made for the Max model at its price basis in one attempt, within its hold |
| Validity.FoldEntries | scripts/provider_verification_budget.py:471-495 | The accumulating loop accepts exactly the request lists with distinct ids and entries shaped as their status demands, and then returns the two refolded totals |
| Validity.ValidateMoney | scripts/provider_verification_budget.py:462-500 | The money check accepts exactly the periods within the request cap, with valid reconciliations under their schema, whose refolded totals are the stored ones and fit the allocation |
| Validity.ValidatePeriod | scripts/provider_verification_budget.py:462-551 | The checker accepts a period exactly when all four layers hold under its schema |
| Validity.ValidateLedger | scripts/provider_verification_budget.py:440-551 | The checker accepts exactly the ledgers with one active period, of the asked id, all of whose layers hold |
| Validity.OwnIsActive | scripts/provider_verification_budget.py:159-161 | In an accepted ledger the owner's period is the checked one exactly when no earlier period repeats its id |
| Validity.PeriodMeans | scripts/provider_verification_budget.py:462-550 | A valid period has at most 10000 requests with different ids, closed ones with a cost and no hold, others with a hold unless reconciled, and no label of an authority that is not registered |
| Validity.LedgerMeans | scripts/provider_verification_budget.py:440-461 | A valid ledger is that of the one provider and currency, and its only active period is the one asked for and valid |
| ShadowedPeriod.ShadowedReservation | scripts/provider_verification_budget.py:458-461 | An accepted ledger with a repeated id lets a reservation overdraw the period the owner works on |
| RequestsKeepValidity.ReserveKeepsPeriod | scripts/provider_verification_budget.py:853-914 | A guarded reservation with a new id below the request cap keeps totals, plan, binding, candidate chain and continuation windows valid together |
| RequestsKeepValidity.SettleKeepsPeriod | scripts/provider_verification_budget.py:917-946 | A guarded settlement keeps every layer, because no frozen prefix holds a reservation |
| RequestsKeepValidity.SettleMoney | scripts/provider_verification_budget.py:931-944 | The incremental totals of a settlement are the refolded ones and their sum never grows |
| RequestsKeepValidity.SettleCharged | scripts/provider_verification_budget.py:917-946 | No reservation lies in the plan's prefix and settling one never raises the charged cost |
| RequestsKeepValidity.WindowIsSettled | scripts/provider_verification_budget.py:840-851 | An available owner finds every request of the active window settled |
| RequestsAccepted.ReserveAccepted | scripts/provider_verification_budget.py:853-915 | Without a fault a reservation by an owner in step with the file is persisted exactly when its guards pass, its id is new and the request cap leaves room, and the owner stays in step |
| RequestsAccepted.SettleAccepted | scripts/provider_verification_budget.py:917-946 | Without a fault a settlement by an owner in step with the file is persisted exactly when its guard passes, and the owner stays in step |
| RequestsAccepted.SettleOutcome | scripts/provider_verification_budget.py:917-946 | In terms of the arguments: a sent request with a known cost becomes completed at exactly that cost, which is added to the known total while its hold leaves the reserved total; one not sent becomes so at cost 0; one of unknown cost keeps its hold; labels and every other request and field stay |
| RequestsAccepted.ReserveOutcome | scripts/provider_verification_budget.py:884-915 | In terms of the arguments: one request is appended that holds the whole amount, added to the reserved total, and names the plan, task, active suite and binding, and the owner's continuation; nothing else changes |
| Availability.ReservesExactly | scripts/provider_verification_budget.py:789-915 | Without a fault an owner in step with the file reserves exactly when the period stands open to it, the metadata keys are the listed ones, and the amount is positive and fits the plan's remainder and the allocation, with a new id below the request cap |
| Availability.OpensExactly | scripts/provider_verification_budget.py:789-851 | A request owner opens a valid file exactly when it is the one authority in force, the continuation's window has room, nothing is reserved and every unknown request may stand |
| Availability.AvailableExactly | scripts/provider_verification_budget.py:789-851 | Which unknown requests may stand: reconciled ones, those carried by the continuation in force or else by the plan, and a rolling plan's own later ones; all others stop the period for everybody |
| Availability.StoppedStays | scripts/provider_verification_budget.py:842-851 | Without a plan a request of unknown cost stops the period: no run that registers no plan opens an owner, adds a request or changes the file |
| Availability.PlanComesFirst | scripts/provider_verification_budget.py:179-292 | Without a plan no registration but that of a plan changes the file |
| ReconcileAccepted.ReconcileAccepted | scripts/provider_verification_budget.py:294-356 | Without a fault a new reconciliation is persisted exactly when it prices an unknown request of the period, follows the last record and the period stands on a continuation without successors |
| ReconcileAccepted.ReconcileKeepsPeriod | scripts/provider_verification_budget.py:336-346 | Appending a valid record keeps every layer under the reconciliation schema |
| RegistrationsAccepted.AuthorizeAccepted | scripts/provider_verification_budget.py:358-394 | Without a fault a first plan is registered exactly when it names the file's digest and length, is valid on its requests, and known, held and planned cost together fit the allocation |
| RegistrationsAccepted.RebindAccepted | scripts/provider_verification_budget.py:396-438 | Without a fault a first rebinding is registered exactly when a plan stands and the rebinding names the file's digest and length and is valid on it |
| RegistrationsAccepted.AppendAccepted | scripts/provider_verification_budget.py:247-292 | Without a fault a candidate with a new id is appended exactly when the file is rebound, the candidate names its digest and length, and the longer chain is valid |
| RegistrationsAccepted.ContinueAccepted | scripts/provider_verification_budget.py:179-229 | Without a fault a new continuation or successor is registered exactly when it follows the active record, names the file's digest and length, is valid on it, and the file holds no reconciliation |
| RegistrationsReturn.AuthorizeReturns | scripts/provider_verification_budget.py:370-394 | Under every fault, a plan registration that returns has its plan on file and changed nothing else; on a file with a plan it returns exactly when the plans are equal, and changes nothing |
| RegistrationsReturn.RebindReturns | scripts/provider_verification_budget.py:408-438 | Likewise for the rebinding |
| RegistrationsReturn.AppendReturns | scripts/provider_verification_budget.py:259-292 | A candidate registration that returns found its candidate or put it last; one that repeats an id returns exactly when the stored candidate is equal, and changes nothing |
| RegistrationsReturn.ContinueReturns | scripts/provider_verification_budget.py:189-229 | A continuation registration that returns has its record in force; one that repeats an id of the line returns exactly when its record is the one in force, and changes nothing |
| RegistrationsReturn.ReconcileReturns | scripts/provider_verification_budget.py:294-356 | A reconciliation that returns found its record or put it last, adding its cost and releasing the hold of its request; one that repeats an id or a request returns exactly when it is stored, and changes nothing |
| LedgerRuns.NextKeeps | scripts/provider_verification_budget.py:666-749 | Every action, with any fault, keeps file and owner sound and changes the file in one of six ways |
| LedgerRuns.RunKeeps | scripts/provider_verification_budget.py:592-749 | Every run keeps the file valid |
| LedgerSafety.RunRemembers | scripts/provider_verification_budget.py:592-718 | Over every run no registered authority is replaced, no settled request changes, every list only grows, and the schema moves only along V1-V2-V3 or V1-V4-V5 and V4-V6 |
| LedgerSafety.StepRemembers | scripts/provider_verification_budget.py:680-718 | Every single change of the file keeps the schema or follows one of the five upgrade edges |
| LedgerUpgrades.UpgradesAreExact | scripts/provider_verification_budget.py:680-718 | For all digest functions, an action of some run from an empty file changes the schema from one version to another exactly when that is one of V1-V2, V2-V3, V1-V4, V4-V5, V4-V6 |
| LedgerUpgrades.RequestReaches | scripts/provider_verification_budget.py:853-946 | One owner that opens the file, passes the guards of reserve, settles and closes leaves the file with exactly that settled request |
| LedgerSafety.SchemaHolds | scripts/provider_verification_budget.py:466-550 | The schema of a valid period says exactly which records it holds and whether its plan is task scoped |
| LedgerSafety.LayersExclude | scripts/provider_verification_budget.py:507-550 | Suite bindings never coexist with continuations, nor continuation chains with reconciliations |
| LedgerSafety.ReplacedSuiteIsClosed | scripts/provider_verification_budget.py:691-711 | Between any two files of a run a candidate suite already replaced in the first neither gains nor loses a request |
| LedgerSafety.PlanSuiteIsClosed | scripts/provider_reverification_binding.py:51-87 | Between any two files of a run the plan's own suite, once replaced, keeps exactly the requests before the rebinding, unchanged |
| LedgerSafety.SaveGuards | scripts/provider_verification_budget.py:592-749 | Whatever the owner's memory holds, an accepted save replaces no registered authority, adds at most one record to a list, over the file it names and only through its own registration with nothing else changed, and otherwise changes a continued period by one request step and nothing outside it |
| LedgerMoney.RunConserves | scripts/provider_verification_budget.py:471-500 | Over every interleaving the stored totals are the refolded ones, within an allocation that never changes |
| LedgerMoney.RunKeepsPlanCap | scripts/provider_verification_budget.py:375-394 | Once a plan is registered, on every run its charged cost stays within its maximum and its maximum within what the frozen prefix leaves of the allocation |
| LedgerMoney.PlanImpliesAllocation | scripts/provider_verification_budget.py:875-883 | Under such a plan, passing the plan check of a reservation implies the allocation check |
| LedgerMoney.SpentSplits | scripts/provider_reverification_plan.py:243-262 | The period total is the cost of the frozen prefix plus the charged cost of the plan |
| LedgerMoney.ReconcileMoney | scripts/provider_verification_budget.py:334-344 | The incremental totals of a reconciliation are the refolded ones and their sum never grows |
| Reservations.RunSingle | scripts/provider_verification_budget.py:842-851 | From a file with no reservation before its last request, every reachable file and memory has at most one reservation, and it is last |
| Reservations.OrphanStays | scripts/provider_verification_budget.py:131-132 | After its owner died, no run of opens, registrations and reconciliations removes a reservation or adds a request |
| Reservations.FailedReserveHolds | scripts/provider_verification_budget.py:884-914 | A reservation that passed its guards stays in the owner's memory even when its save fails |
| Reservations.HoldingBlocks | scripts/provider_verification_budget.py:842-851 | While an owner holds a reservation, no run that neither settles it nor closes the owner changes memory or file |
| Reservations.DivergedIsMute | scripts/provider_verification_budget.py:719-740 | An owner that no longer agrees with the file never writes it again |
| Reservations.RaisedIsMute | scripts/provider_verification_budget.py:719-749 | After a reserve or settle whose save raised behind the replace, the owner never writes the file again |
| Reservations.ReserverNamesAuthority | scripts/provider_verification_budget.py:789-851 | Under a plan every available owner names its id and the active suite, or the task and the active continuation |
| Reservations.RegistrarsDoNotReserve | scripts/provider_verification_budget.py:789-791 | An owner opened for a registration never reserves |
| Reservations.NobodyIsRefused | scripts/provider_reverification_plan.py:231-242 | An owner without identity is never available under a plan |
| BudgetLedger.CheckRequestsStep | scripts/provider_verification_budget.py:638-664 | The loop over old and new requests accepts exactly one new reservation plus well-shaped settlements |
| BudgetLedger.CheckContinuationSave | scripts/provider_verification_budget.py:592-664 | The save check under a continuation accepts exactly its three kinds of change |
| BudgetLedger.VerificationBudgetLedger.Enter | scripts/provider_verification_budget.py:106-146 | Entering succeeds exactly for a valid file and, for a request owner, an available one |
| BudgetLedger.VerificationBudgetLedger.Save | scripts/provider_verification_budget.py:666-749 | The object's save is the modelled save on memory and file, under every fault |
| BudgetLedger.VerificationBudgetLedger.Reserve | scripts/provider_verification_budget.py:853-915 | The object's reserve is the modelled step on memory and file and returns the new id exactly on success |
| BudgetLedger.VerificationBudgetLedger.Settle | scripts/provider_verification_budget.py:917-946 | The object's settle is the modelled step on memory and file; a closed owner changes its memory only |
| BudgetLedger.AuthorizeReverification | scripts/provider_verification_budget.py:358-394 | Registering a plan is the modelled step on the file; a repeated plan changes nothing |
| BudgetLedger.RebindReverification | scripts/provider_verification_budget.py:396-438 | Registering the rebinding is the modelled step on the file |
| BudgetLedger.AppendReverificationBinding | scripts/provider_verification_budget.py:247-292 | Appending a candidate is the modelled step on the file |
| BudgetLedger.AuthorizeTaskContinuation | scripts/provider_verification_budget.py:179-229 | Registering a continuation or a successor is the modelled step on the file |
| BudgetLedger.ReconcileRequestUsage | scripts/provider_verification_budget.py:294-356 | Reconciling is the modelled step on the file |
| Pricing.CostWithinReservation | scripts/provider_verification_guard.py:103-123 | A usage is priced exactly when it is complete and within both token limits, and then within the reserved amount |
| Pricing.CostMonotone | scripts/provider_verification_guard.py:111-123 | More input or output tokens never cost less, across tiers too |
| Pricing.DeclaredAreWellPriced | scripts/provider_verification_guard.py:65-238 | Each of the six bounds classes has tiers covering its input range with rates that never fall |
| Pricing.MarginalPrice | scripts/provider_verification_guard.py:111-123 | Inside a tier no tokens cost nothing, one more input token costs exactly the tier's input rate and one more output token exactly its output rate, times 10^9 |
| Pricing.TierIsLeast | scripts/provider_verification_guard.py:120-122 | The tier of an input is the one of least index whose limit admits it, and there is none exactly when no limit does |
| Pricing.ReservationIsTight | scripts/provider_verification_guard.py:103-109 | The reserved amount is the price of the full input and output, so no smaller amount would do |
| GuardedStream.Relay | scripts/provider_verification_guard.py:291-340 | The event loop ends cleanly exactly when the stream was not cut and every event is admissible, and then tracks exactly what the events say; it relays the longest admissible prefix before any response, and holds the request as possibly sent exactly when an attempt, conforming or not, was announced after admissible events |
| GuardedStream.TrackedCostIsKnown | scripts/provider_verification_guard.py:344-361 | The cost derived from the tracked flags is the cost defined on the whole event sequence |
| GuardedStream.KnownCostMeans | scripts/provider_verification_guard.py:344-361 | A known cost means an uncut stream with exactly one started attempt, conforming and ended, every observation between and of it, on the fixed model, with complete usage in bounds, and a response only after a completed attempt whose usage it repeats |
| GuardedStream.CountsNeverFall | src/harnessix/agent/usage.py:69-80 | No later observation of an admissible stream drops or lowers a token count of an earlier one, and after a complete one every known count stays |
| GuardedStream.KnownCostGiven | scripts/provider_verification_guard.py:344-361 | Conversely every such stream has a known cost |
| GuardedStream.MetadataMeans | scripts/provider_verification_guard.py:265-278 | The reservation records the model, price source, one attempt, output limit, purpose, region, and the request's own thread, turn and step |
| GuardedStream.MayStreamMeans | scripts/provider_verification_guard.py:83-101 | A guard may try to reserve exactly in its price window with an output limit up to 4096, and every Beta guard only for the one task |
| GuardedStream.BetaIsTasked | scripts/provider_verification_guard.py:261-264 | A reservation for an owner that names the task carries the task label |
| GuardedStream.ReservationSettles | scripts/provider_verification_guard.py:265-367 | A persisted reservation can be settled with any admissible arguments |
| GuardedStream.GuardedProvider.Stream | scripts/provider_verification_guard.py:251-375 | For every event sequence and ending: one reserve is tried exactly when nothing is cancelled and the bounds allow it; a persisted reservation is settled exactly once with the known cost under arguments that meet settle's guard; what is relayed, sent, released and cancelled is fixed by the events: the response is released exactly after a clean end with a persisted known cost, and the suite is cancelled exactly by a refused reservation, a failed settlement, or a sent request without known cost or response |
| GuardedStream.UnknownOnFile | scripts/provider_verification_budget.py:853-946 | A persisted reservation settled as sent without a cost is the last request on file, with its full hold, alone with its id |
| GuardedStream.MaxPrice | scripts/provider_usage_reconciliation.py:130-143 | Under the Max bounds a reconciliation's price is the live price of the same tokens and at most the reserved maximum |
| GuardedStream.ReconciliationFits | scripts/provider_usage_reconciliation.py:104-143 | A request the guard made under the Max bounds and left unknown is reconciled by a record exactly when all conditions but the hold are met: the hold is never the reason to refuse |
| ZipPreflight.FindEnd | scripts/secret_scan_archives.py:55-57 | The last end signature in the search range is found, if there is one |
| ZipPreflight.Preflight | scripts/secret_scan_archives.py:52-87 | With time left, an archive is accepted exactly when its end record is plain and reaches the last byte, supported central records tile the directory, and the sorted local records tile everything before it |
| ZipPreflight.WalkDirectory | scripts/secret_scan_archives.py:65-85 | The first loop accepts exactly a directory of the stated number of supported records and nothing else |
| ZipPreflight.WalkLocals | scripts/secret_scan_archives.py:90-115 | The second loop accepts exactly records that follow one another from the first byte to the directory |
| ZipPreflight.EveryByteOnce | scripts/secret_scan_archives.py:52-115 | Every byte of an accepted archive lies in exactly one region: in exactly one local record and no central one, in exactly one central record and no local one, or in the end record and in neither |
| ZipPreflight.NoSharedLocals | scripts/secret_scan_archives.py:95-103 | No two central entries of an accepted archive share local bytes |
| ZipWriter.PreflightWritten | scripts/secret_scan_archives.py:52-115 | For archives written field by field, the directory in any order: when no end signature follows the end record's own, the preflight accepts, with the number of members, exactly those with supported members within the limits; without an archive comment it accepts no other |
| ZipWriter.WrittenIsOk | scripts/secret_scan_archives.py:52-115 | A written archive has the demanded structure at its end record exactly when it is permitted |
| ZipWriter.CentralReads | scripts/secret_scan_archives.py:23-82 | A central header written as section 4.3.12 of PKWARE APPNOTE.TXT lays it out is read back field by field |
| ZipWriter.LocalReads | scripts/secret_scan_archives.py:24-113 | A local record written as sections 4.3.7 and 4.3.9 lay it out ends where it was written to end, with or without a data descriptor |
| ZipWriter.EndReads | scripts/secret_scan_archives.py:22-64 | An end record written as section 4.3.16 lays it out is read back field by field |
| ZipWriter.OffsetReadsAsEnd | scripts/secret_scan_archives.py:55 | A directory offset that spells the end signature puts a later end signature into the file |
| SoakEvidence.RunDirectory.Publish | scripts/soak_evidence.py:277-321 | After any failure or death the run reads back exactly when its commit marker is in place, and then as the published manifest; that is exactly when the evidence agrees, every step before the marker succeeds and the marker's write reaches its target; it returns normally exactly when that write also returns, and raises with a readable run exactly when that write raises after the replace |
| SoakEvidence.CommittedReads | scripts/soak_evidence.py:338-485 | With every file in place the reader returns the published manifest and its digest |
| SoakEvidence.ReadsExactly | scripts/soak_evidence.py:338-485 | The reader returns a manifest exactly for the directories, named after its run, that hold a complete set of consistent evidence for it |
| SoakEvidence.WriteHolds | scripts/soak_evidence.py:110-144 | A write that reaches its target, returning or not, adds the next file whole; any other leaves the marker absent |
| SoakAttempt.Attempt.Begin | scripts/soak_attempt.py:81-117 | A new attempt directory gets its start record as the two steps allow; an existing one is never touched |
| SoakAttempt.Attempt.Finish | scripts/soak_attempt.py:150-186 | A final record is written, as its write allows, exactly when a start record reads, the record is well formed and the run bears it out; otherwise nothing changes |
| SoakAttempt.Attempt.Commit | scripts/soak_attempt.py:248-259 | A readable run is recorded as committed if it fits the start record, and the handle is marked exactly when that write returned |
| SoakAttempt.Attempt.Scope | scripts/soak_attempt.py:189-292 | Whatever fails or dies, the attempt reads back exactly when its start record is in place, no torn file is left and no final record is dated before the start, and then as started only, failed with no readable run, or committed with the matching run; any exception without a readable run keeps the failed record, a committed record in place counts even if its write raised, and the scope returns exactly when it committed and its body returned |
| SoakAttempt.RecordReads | scripts/soak_attempt.py:189-237 | A final record the run bears out reads back as its write ended: as itself unless it is dated before the start, not at all over a torn file, else as started only |
| SoakAttempt.HiddenExactly | scripts/soak_attempt.py:189-292 | An attempt does not read back exactly when its start record did not get in place, the write of its final record left a torn file, or the clock then stood before the start |
| SoakAttempt.HiddenAttempts | scripts/soak_attempt.py:199-216 | A failed attempt with a torn final record, and one with a clock stepped back, do not read back |
| SoakArtifactProof.Verify | scripts/soak_artifact_proof.py:89-139 | The loop accepts exactly when the claimed indices increase through exactly the publish and read samples, each with its metric and phase |
| SoakArtifactProof.ClaimsEnumerate | scripts/soak_artifact_proof.py:112-138 | The concatenated claims are the one increasing enumeration of the publish and read samples |
| SoakArtifactProof.AcceptedCounts | scripts/soak_artifact_proof.py:32-139 | With distinct sample indices there is one publish sample per entry and one read sample per page |
| SoakArtifactProof.ClaimsAreSamples | scripts/soak_artifact_proof.py:66-139 | Every publish index is that of a publish sample and every read index that of a read sample in the entry's phase, the warm-up entries first |
| SoakContextProof.Validate | scripts/soak_context_proof.py:74-112 | The checker accepts exactly when all its checks but the last hold, so the last one is never the one that refuses |
| SoakContextProof.TotalsFollow | scripts/soak_context_proof.py:98-120 | The per-turn checks fix the totals: window events are the final windows, prepared contexts are the model requests, started attempts are the summary requests |
| SoakContextProof.RoundsAreWhole | scripts/soak_context_proof.py:99-108 | In every turn the compaction events come in whole rounds in the fixed order, one per completed summary |

## Left out

- Text forms: JSON and pydantic parsing, timestamps as text, UUID syntax and amount strings. Two spellings of one amount are one value here, so the textual comparison of a carried hold is a comparison of amounts.
- Rebuilding records against tampered Python objects (`snapshot_*`): records are taken as well-typed values that meet their field constraints.
- The byte limit on a single continuation record and the size limits of evidence files: a write that breaks them is one of the modelled failures.
- File ownership, permissions, access control lists, inode identity and fsync: the file is read atomically and replaced atomically.
- The request pacer: waiting happens before the reservation and its timing depends on the event loop.
- Duplicate request ids inside one frozen prefix are only excluded by the period check; the dictionaries the source builds from such a prefix would keep the last entry.
- GuardedStream.GuardedProvider.Stream: takes the events as one sequence with an ending instead of interleaving with the consumer; a consumer that closes early is a cut.
- SoakAttempt.Attempt.Scope: the body publishes and commits at most once each, in this order.
- SoakEvidence.RunDirectory.Publish: a sample series that is refused before its file is written is refused after it here; both leave an unreadable run. The cross-checks of manifest, samples and scenario proofs are arbitrary functions shared by writer and reader.
- The TAR reader, member name rules, decompression and the secret patterns: library behaviour or simpler walks than the ZIP preflight.
- The action, restart, thread and SDK soak proofs, the runners, licence, documentation and specification scripts: they would only add easier members.
