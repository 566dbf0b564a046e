# Autocrafting server: planner, ledger, transfers, storage index

The server plans crafts over the items in remote inventories, reserves what the plans need, hands
the work to machines, and moves the items there through a redo log. This project models that logic
in Dafny and proves what the parts promise, separately and together. `dafny verify dfyconfig.toml`
checks everything.

| files | part |
|---|---|
| `TopologicalSort`, `Recipes`, `RecipeClosure`, `Planner`, `PlanTheorems` | closing the goals over the recipes, sorting consumers first, choosing repeats; sufficiency, least plan, executability |
| `Sums`, `Ledger`, `LedgerInvariant`, `LedgerRuns`, `Database` | the plan, craft, reserve and wait tables; the exact reserve on every run; the transactions as methods |
| `Scheduler`, `PlanAcceptance`, `PlanRuns`, `Progress` | scheduling, accepting a plan, and what every run of a plan keeps, from the planner's output to the last craft |
| `CodeRuns`, `Completion`, `Deadlock`, `Queues`, `Contested` | the same runs in the moves that the server makes, with every item where it is; exactly when a plan can be finished, which plans need no ping, and what the order of the crafts can hold up |
| `Transfer`, `TransferSafety`, `TransferTheorems`, `TransferReach`, `Deliveries`, `TransferManager` | the redo-log protocol with crashes, lost replies, partial moves and replays; what arrives where; the manager as imperative code that only takes protocol steps |
| `ProcessingRequest`, `Coupling`, `ProcessingWorker` | starting a craft on a machine: the request, and the transfer's record and the craft's row in one transaction |
| `CraftBatch` | a craft in batches, interrupted and restored any number of times |
| `StackMoves`, `WarmStore` | the four-part index of the warm chests, the moves that keep it, and what an import or export asks of the stacks |
| `RecipeForm` | the recipe form's printer and parser |

Database transactions are single steps on maps; a rolled-back one changes nothing. The remote
storage moves any number of items up to what was asked, and may fail with or without having moved
them. Items are named by their uid; counts are unbounded integers, with Go's truncating division
written out where it is used and the 64-bit range where numbers are parsed.

## What the code does that its readers may not expect

Each point is a statement of the model, named below.

- The planner holds the largest line of a catalyst, the scheduler waits for the sum of its lines.
  A recipe that lists one catalyst twice is planned and accepted, and its step then never starts
  (`Deadlock.OverlistedStaysOpen`, `Deadlock.LampNeverFinishes`). Where catalysts are nobody's
  ingredients, a plan can be finished if and only if it keeps what each step's catalyst lines sum to
  and each step's recipe is served (`Deadlock.CanFinishIff`): a plan is accepted without a look at
  either. Where another step uses the catalyst up, keeping enough is sufficient but not needed
  (`Contested.NotKeptCanFinish`).
- A recipe is served (`CodeRuns.Served`) by the clients of its type if its batch limit is positive
  and its ingredients' slots are within the worker's marks; by a machine if that has the inlets, the
  transfer admits the request and can set it up, and, if the machine waits for results, an outlet
  shows some of what comes out. A slot beyond the marks makes the worker panic every time
  (`CraftBatch.SlotsThatPanic`, `Deadlock.PanicNeverEnds`); 28 item lines, two fluids with one
  transaction tank, or no input at all are refused every time (`ProcessingRequest.RefusedRecipes`,
  `Deadlock.RefusedNeverEnds`).
- A machine takes its crafts in the order of their rows and ends its pass at the first that it cannot
  start. If that one waits for a catalyst that another step has used up, and the craft that makes
  another one is behind it, the plan stops until someone delivers (`Queues.FirstHoldsUpThePlan`, and
  `Queues.QueueHoldsUpThePlan` for a plan, and a run that leads there). It does not come to this
  where a step whose catalysts are used up shares its machine or clients with no other step
  (`Completion.EveryPlanCanFinish`).
- A recipe's own repeat limit is used unchecked: with a limit below one, or with a line above a
  stack, no craft of it ever finishes, and with a large limit a single export exceeds a stack
  (`CraftBatch.FinishesIff`, `Deadlock.UnservedNeverEnds`, `CraftBatch.FullBatchFitsIff`).
- The update pass checks a plan only when it changed one of its rows. A plan with repeats left that
  lacks nothing of which more is stored than reserved waits for a ping or a delivery
  (`Completion.IdlePlanGoesOnIff`). Accepting a plan checks it once; if no step with catalysts has
  more than one repeat, and no update pass is cut short, it never needs a ping after that
  (`Completion.NeverNeedsAPing`).
- A transfer's setup empties every configured tank but waits only for the records of the tanks it
  locks. A stored transfer is delivered in full if and only if no setup ever emptied a store of it
  (`TransferTheorems.ExactlyOnce`); a request can never do that exactly when each stored transfer
  with something left in a store to be emptied shares a subject with it
  (`TransferReach.SetupSafeIff`), as when every request locks all tanks
  (`TransferTheorems.LockingAllTanksLosesNothing`). Otherwise a fluid on its way is lost
  (`TransferReach.CrashedFluidIsLost`).
- `importToEmptySlot` notes the amount it asked for and not the amount moved, so the index is exact
  after it if and only if the two agree; clearing a slot that was not in use counts it free twice
  (`WarmIndex.SetKeepsIff`).
- Completing a craft row that is not committed deletes it with its ingredients still reserved
  (`LedgerInvariant.CompleteKeepsIff`). A cancel checks only the commit count of the caller's copy
  (`LedgerInvariant.CancelKeepsIff`), and a commit releases by the recipe the caller read
  (`LedgerInvariant.CommitKeepsIff`). Runs lead to where the first two go wrong
  (`LedgerRuns.UncommittedCompletionBreaks`, `LedgerRuns.StaleCancelBreaks`).
- A goal count may be negative. It counts as covered, and the plan's rows are good if and only if no
  item's planned demand is negative (`PlanAcceptance.WrittenValidIff`,
  `PlanAcceptance.NegativeGoalIsAccepted`).
- Goals are planned as if none of the item were stored; of two goals for one item the last one
  counts (`PlanTheorems.GoalsAreMadeAnew`). The ceiling division is one too high for negative non-multiples,
  which the planner never feeds it (`Planner.CeilExactness`).

## Model

| member | source | states |
|---|---|---|
| TopologicalSort.Sorter.Visit | internal/common/slice.go:12-40 | the recursive visit ends on every finite graph; without a cycle it lists everything reachable from the item before the item, and it flags a cycle only if one is reachable |
| TopologicalSort.Reverse | internal/common/slice.go:54-57 | the two-index swap loop reverses the list |
| TopologicalSort.Sort | internal/common/slice.go:4-60 | empty exactly for empty input or a reachable cycle; otherwise each reachable item once, before all its dependencies |
| TopologicalSort.OrderExcludesCycle | internal/common/slice.go:31-57 | a consumers-first list of everything reachable cannot exist beside a reachable cycle |
| RecipeClosure.ClosureIsLeast | internal/services/crafter/planner.go:30-80 | the expanded items are the least set holding the goals and every input of every recipe that makes a member |
| RecipeClosure.CyclesAgree | internal/services/crafter/planner.go:46-66 | a cycle in the recorded dependency map is exactly a cycle of recipes that craft each other's inputs |
| RecipeClosure.ExpandRecipes | internal/services/crafter/planner.go:30-80 | ends on any recipe table; fails exactly for no goals or a recipe cycle in the closure; otherwise the closure in an order with every input after its consumer, and one recipe for each craftable item |
| Planner.CeilExactness | internal/services/crafter/planner.go:82-88 | the result is the least sufficient number of batches if and only if the demand is non-negative or a multiple |
| Planner.StartState | internal/services/crafter/planner.go:105-120 | before the loop the running stock is the balance of an empty step list, and each goal is related with its count and no stock |
| Planner.TakeStep | internal/services/crafter/planner.go:137-191 | one step keeps the running stock equal to the balance, the related totals exact, and the held catalysts at the maximum line |
| Planner.RepeatsCover | internal/services/crafter/planner.go:130-137 | the repeats chosen cover the shortage with a surplus below one output |
| Planner.StepKeepsSettled | internal/services/crafter/planner.go:125-192 | a step for the next item in order never makes an earlier item short again |
| Planner.GetPlanForItem | internal/services/crafter/planner.go:90-229 | no plan exactly for no goals or a recipe cycle; otherwise steps covering every craftable item, with exact totals in Related and, for single-result recipes, surpluses below one output |
| PlanTheorems.CoveredIffRawCovered | internal/services/crafter/crafter.go:126-137 | every item is covered if and only if every item without a recipe is |
| PlanTheorems.CoveredUnlessRaw | internal/services/crafter/crafter.go:126-137 | an item left short has no recipe, so only such an item can get a plan rejected |
| PlanTheorems.GoalsAreMadeAnew | internal/services/crafter/planner.go:113-120 | whatever is stored of a goal that asks for something: with a recipe the steps make its count beside what they use and hold of it, less than one output over for single results; without anything that makes it the plan never covers it |
| PlanTheorems.CoveredIffEnough | internal/services/crafter/crafter.go:126-137 | a plan is covered if and only if of each goal enough is made by the steps, and of every other item enough is stored or made |
| PlanTheorems.RelatedMeans | internal/services/crafter/planner.go:105-192 | the totals that a plan carries: no stock for a goal and what is stored for any other item; what is produced; and as consumed what is asked, used and held |
| PlanTheorems.HeldIsLargestLine | internal/services/crafter/planner.go:154-171 | what is held of a catalyst is the largest amount on any catalyst line of any step, none above it and one that has it |
| PlanTheorems.DistinctGoalsAreMet | internal/services/crafter/planner.go:113-120 | with distinct goals the planned demand of each is the count asked for |
| PlanTheorems.LeastPlan | internal/services/crafter/planner.go:122-192 | for single-result recipes the chosen repeats are pointwise at most those of any vector that covers every craftable item |
| PlanTheorems.RunsBackwards | internal/services/crafter/planner.go:188-191 | a step list with producers later runs from its end on any stock with non-negative final balances, and ends with exactly stock plus produced minus used |
| PlanTheorems.ExecutablePlan | internal/services/crafter/planner.go:122-192 | a covered plan run in reverse has all ingredients and catalysts present before each step, and leaves the goals and the held catalysts |
| Ledger.ReserveNeverNegative | internal/dao/item_reserve.go:37-50 | in balanced tables no reserve is negative |
| LedgerInvariant.InsertPlanKeeps | internal/dao/plans.go:249-296 | a new plan's amounts are reserved exactly |
| LedgerInvariant.InsertCraftKeeps | internal/dao/crafts.go:98-167 | a submitted craft moves its share from plan to craft: reserves unchanged, required minus amount unchanged in every row |
| LedgerInvariant.CommitKeeps | internal/dao/crafts.go:169-205 | committing up to all repeats releases exactly their ingredients |
| LedgerInvariant.CommitKeepsIff | internal/dao/crafts.go:169-205 | a commit by the recipe its caller read keeps the ledger if and only if that has the ingredients of the row's recipe, as far as they are reserved |
| LedgerInvariant.CompleteKeepsIff | internal/dao/crafts.go:281-311 | completing keeps the ledger if and only if no worker waits for the craft, and the row is committed or its recipe has no ingredients |
| LedgerInvariant.CancelShift | internal/dao/crafts.go:222-256 | by how much a cancel with any accepted copy puts the reserve of an item off |
| LedgerInvariant.CancelKeepsIff | internal/dao/crafts.go:222-256 | cancelling keeps the ledger if and only if the copy has the row's repeats, or no ingredient was ever reserved |
| LedgerInvariant.RemovePlanKeeps | internal/dao/plans.go:298-344 | removing a plan releases exactly what its rows hold |
| LedgerInvariant.CleanupKeeps | internal/dao/plans.go:346-349 | dropping empty rows changes no share |
| LedgerInvariant.AllocateKeeps | internal/dao/item_reserve.go:52-129 | an allocation raises reserve and plan rows by the same amount |
| LedgerRuns.NextKeepsValid | internal/dao/crafts.go:98-398 | every transaction, assignments and wait rows included, keeps rows, craft states and the ledger consistent |
| LedgerRuns.LedgerExactOnEveryRun | internal/dao/item_reserve.go:37-129 | on every run from empty tables each reserve equals plan amounts plus ingredients of open repeats, and is never negative |
| LedgerRuns.UncommittedCompletionBreaks | internal/dao/crafts.go:281-311 | a run leads to a pending craft whose completion leaves its ingredients reserved for good |
| LedgerRuns.StaleCancelBreaks | internal/dao/crafts.go:222-256 | a run leads to where a copy of a craft, read earlier on the same run, passes the guard of a cancel that breaks the ledger |
| Database.Database.InsertPlan | internal/dao/plans.go:249-296 | a new plan id with exactly the given rows, each reserve up by the row of its item, everything else as it was |
| Database.Database.InsertCraft | internal/dao/crafts.go:98-167 | accepted exactly when the step budget and the plan's rows allow all repeats, an item in many slots included; refused without change; accepted, the pending craft is there, the plan has given up its repeats and ingredients, and no other row is touched |
| Database.Database.CommitCraft | internal/dao/crafts.go:169-220 | goes through exactly for a pending row without commits: the row is committed, each reserve falls by the ingredients, the wait rows of the craft are gone, and no other craft, wait row or plan changes |
| Database.Database.CompleteCraft | internal/dao/crafts.go:281-327 | the row goes back to pending with the open repeats, or away when none are left; a row that is not committed goes away too; nothing else changes |
| Database.Database.CancelCraft | internal/dao/crafts.go:222-256 | goes through exactly when the commit counts agree: the craft and its wait rows are gone, each reserve falls by the copy's open repeats, and no plan, other craft or other wait row changes |
| Database.Database.AssignCraftToWorker | internal/dao/crafts.go:381-398 | a craft is taken by one worker at most |
| Database.Database.CompleteWorkerWait | internal/dao/worker_state.go:37-64 | the craft is completed exactly if this worker's wait row is there |
| Database.Database.RemovePlan | internal/dao/plans.go:298-344 | no row of the plan is left, each reserve falls by what the plan held, and every row of another plan, every craft and every wait row is as it was |
| Database.Database.CleanupItems | internal/dao/plans.go:346-349 | exactly the plan's rows with nothing held and nothing required are gone, no plan holds or requires less of any item, and consistent tables stay so |
| Database.Database.UpdateItemCount | internal/dao/item_reserve.go:52-129 | no reserve above the count, no amount above its requirement, as much handed out as reserved, and either nothing is free or no plan is short; reports exactly the plans it changed |
| Scheduler.NextRepeats | internal/services/crafter/crafter.go:56-72 | positive exactly if the budget is and no input is too short for one repeat; then within budget, stock and the cap of one for catalysts, and one more would be too many; whatever the sign of what the plan holds |
| Scheduler.FittingIsAccepted | internal/dao/crafts.go:114-157 | repeats that fit are never refused by the insert |
| Scheduler.CheckNextSteps | internal/services/crafter/crafter.go:32-114 | each step in order submits the most that fits where it happens, exactly if one repeat fits; then a cleanup if anything was submitted; no submission is refused |
| Scheduler.CheckSubmitsIff | internal/services/crafter/crafter.go:48-96 | a check submits something exactly if some step can submit when it begins, changes nothing otherwise, and keeps consistent tables so |
| Scheduler.CheckLeavesNothing | internal/services/crafter/crafter.go:56-104 | if no step with catalysts has more than one repeat left, no step fits any more right after a check |
| PlanAcceptance.SchedulePlanForItem | internal/services/crafter/crafter.go:120-173 | for goal counts of any sign: accepted exactly when a plan exists and covers every item; then its rows are written and checked, otherwise nothing changes |
| PlanAcceptance.RowsMean | internal/services/crafter/crafter.go:126-150 | a plan's row requires what is asked, used and held of the item; it holds nothing of a goal, and of any other item what is stored, up to what is required |
| PlanAcceptance.WrittenValidIff | internal/services/crafter/crafter.go:126-160 | the tables a plan is written to stay consistent if and only if no item's planned demand is negative |
| PlanAcceptance.DemandNonNegative | internal/services/crafter/planner.go:113-192 | goals that ask for nothing negative lead to no negative demand |
| PlanAcceptance.NegativeGoalIsAccepted | internal/services/crafter/crafter.go:126-137 | a goal of -5 is covered and leaves a row that holds and requires -5 |
| PlanRuns.StepKeepsInv | internal/dao/crafts.go:98-311 | every move of an accepted plan's life keeps its requirement equal to the work left, the outlook covered, and the reserve backed by stock |
| Progress.LastStepFits | internal/services/crafter/crafter.go:56-88 | with short items topped up, a step with repeats left fits as soon as no later step has repeats left or crafts under way |
| Progress.SomethingFits | internal/services/crafter/crafter.go:56-88 | with repeats left, nothing outstanding and short items topped up, the next check submits a craft |
| Progress.PendingIsBacked | internal/services/crafter/worker.go:117-174 | the ingredients of every pending craft are in storage |
| Progress.RankFalls | internal/dao/crafts.go:98-311 | no move raises the total of step and craft repeats, and submissions and completions lower it |
| Progress.WorkIsBounded | internal/dao/crafts.go:98-311 | a run holds no more submissions and completions than the rank it began with |
| Progress.PlanNeverDeadlocks | internal/services/crafter/crafter.go:32-173 | a covered plan of single-result recipes with distinct catalysts, as the planner makes it, is never stuck in any state of any run, and its work is bounded |
| CodeRuns.StepKeepsOrderly | internal/services/worker/processing_crafter_worker.go:172-335 | whatever the batch limits are, every move keeps wait rows with committed crafts of the machine that waits, and exports with pending crafts, one batch each |
| CodeRuns.CodeStepKeepsInv | internal/services/crafter/worker.go:117-174 | every move of the server is a run of plan moves, keeps the plan's invariant, and keeps track of every item: stored, waiting for import, or lent to a craft; submissions and completions take work away |
| CodeRuns.CodeRunOnward | internal/services/crafter/crafter.go:32-173 | every run of the server is a run of plan moves, so what holds in those holds here |
| Completion.ReportAll | internal/services/crafter/state_updater.go:59-76 | an update pass over all items tops every short item up, and marks the plan if any was short of something free |
| Completion.StoredHoldsGoals | internal/services/crafter/planner.go:122-192 | when nothing is left to do, the goals and the held catalysts are in storage or still to be imported |
| Completion.RunsToTheEnd | internal/services/crafter/worker.go:94-232 | from every state of the invariant the server can finish the plan without a delivery: whole checks with maximal submissions, exports and commits of one batch, completions, imports, exact count reports; with each craft taken in turn where the queues are safe, and without a ping once a check has left nothing that fits |
| Completion.EveryPlanCanFinish | internal/services/crafter/crafter.go:32-173 | from every state of every run of the server, a plan with distinct catalysts whose recipes are all served can be finished without a delivery, everything imported and the goals stored, and with each craft taken in turn where no step whose catalysts are used up shares its machine or clients |
| Completion.NeverNeedsAPing | internal/services/crafter/state_updater.go:45-106 | where no step with catalysts has more than one repeat, from every state of every run after a check, with no update pass cut short, such a plan can be finished without a ping or a delivery |
| Completion.AnyCraftStored | internal/services/worker/processing_crafter_worker.go:221-335 | with everything imported and no craft committed, the inputs of every pending craft whose catalysts are no step's ingredients are stored |
| Completion.IdlePlanGoesOnIff | internal/services/crafter/state_updater.go:45-106 | an idle plan with repeats left submits anything more without ping or delivery if and only if it lacks some of an item of which more is stored than reserved; a ping would submit in any case |
| Progress.StepKeepsCatalysts | internal/services/crafter/crafter.go:56-88 | every move leaves the plan the catalysts of each craft, where they are no step's ingredients |
| Progress.OverlistedCatalystNeverStarts | internal/services/crafter/crafter.go:64-72 | a step whose catalyst lines sum to more than the plan keeps required is never submitted |
| Deadlock.OverlistedStaysOpen | internal/services/crafter/crafter.go:64-72 | such a step keeps all its repeats in every state of every run |
| Deadlock.UnservedNeverEnds | internal/services/crafter/worker.go:136-261 | with a recipe that is not served, no run of the server ends, whatever is pinged, delivered or taken out of turn |
| Deadlock.RefusedNeverEnds | internal/services/storage/transfer_transaction_manager.go:264-283 | nor with a step whose request its machine's transfers do not admit |
| Deadlock.PanicNeverEnds | internal/services/crafter/worker.go:235-241 | nor with a step for clients with an ingredient's slot beyond the 20 marks |
| Deadlock.CanFinishIff | internal/services/crafter/crafter.go:64-72 | a plan whose catalysts are no step's ingredients can be finished by the server, with whatever help, if and only if it keeps what each step's catalyst lines sum to and each recipe is served; and then without a delivery and with each craft taken in turn |
| Deadlock.KeptIffDistinct | internal/services/crafter/planner.go:154-171 | for one step with catalysts of its own, the plan keeps enough of them if and only if none is listed twice |
| Deadlock.RepeatedCatalystDeadlocks | internal/services/crafter/planner.go:154-171 | a concrete plan that the planner makes and that covers everything asks the scheduler for more of a catalyst than it keeps |
| Deadlock.LampNeverFinishes | internal/services/crafter/crafter.go:64-72 | written to empty tables, that plan is never finished, however it runs, whatever is delivered and whatever works on it |
| Contested.NotKeptCanFinish | internal/services/crafter/crafter.go:64-72 | a concrete plan that keeps less than a step's catalyst lines sum to can be finished, because another step uses the catalyst up |
| Queues.FirstHoldsUpThePlan | internal/services/worker/processing_crafter_worker.go:219-335 | with nothing left to submit, a machine's first craft that lacks an item which only crafts behind it make keeps the plan from its end on every run in turn without a delivery |
| Queues.QueueHoldsUpThePlan | internal/services/worker/processing_crafter_worker.go:219-335 | a concrete plan that is served and keeps its catalysts, and a run in turn to a state from which no run in turn ends it without a delivery, though one out of turn does |
| TransferSafety.NextConserves | internal/services/storage/transfer_transaction_manager.go:133-262 | no step, failed ones included, creates or loses an item over storage, staging and targets |
| TransferSafety.EmptyMeansDelivered | internal/services/storage/transfer_transaction_manager.go:144-153 | a replay that finds the stores empty has delivered every line in full if and only if no setup returned items from them |
| TransferSafety.CommitKeepsHolds | internal/services/storage/transfer_transaction_manager.go:23-35 | the committed record owns exactly what was staged for it and shares no store with a live record |
| TransferSafety.WholeIff | internal/services/storage/transfer_transaction_manager.go:190-204 | every item of a record is delivered or still staged if and only if no setup ever returned items from its stores |
| TransferSafety.DumpSafeIff | internal/services/storage/transfer_transaction_manager.go:190-204 | returning items from a place leaves every whole record whole if and only if none that is live holds its store |
| TransferTheorems.NextKeepsInv | internal/services/storage/transfer_transaction_manager.go:100-262 | every step of any run keeps lines within their amounts, and exact unless a setup took some; locks disjoint; dropped records delivered; and what the program counter knows |
| TransferTheorems.ExactlyOnce | internal/services/storage/transfer_transaction_manager.go:100-262 | in every state of every run: delivered plus staged never exceeds a line's amount; a record is whole, and once dropped delivered in full, if and only if no setup returned items from a store it locked; arrivals are exactly the deliveries of committed lines; no store has two live records |
| TransferTheorems.SharingLosesNothing | internal/services/storage/transfer_transaction_manager.go:174-204 | if every request shares a subject with the records whose stores it empties, every record stays whole |
| TransferTheorems.LockingAllTanksLosesNothing | internal/services/storage/transfer_transaction_manager.go:174-204 | where every request asks for as many fluids as there are tanks, every record stays whole |
| TransferTheorems.RunConserves | internal/services/storage/transfer_transaction_manager.go:100-262 | the total of each item is constant over every run |
| TransferReach.EveryTransferCanFinish | internal/services/storage/transfer_transaction_manager.go:82-112 | from any quiet state one undisturbed replay drops a stored transfer, delivered in full unless a setup took some of it, and touches no other |
| TransferReach.SetupSafeIff | internal/services/storage/transfer_transaction_manager.go:174-204 | a request may begin without ever spoiling a stored transfer if and only if each one with items left in a store to be emptied shares one of its subjects |
| TransferReach.CrashedFluidIsLost | internal/services/storage/transfer_transaction_manager.go:199-204 | a concrete run that loses a committed fluid transfer |
| TransferManager.TransferTransactionManager.MoveStack | internal/services/storage/transfer_transaction_manager.go:136-141 | a remote call that moves some, moves and loses its reply, or does nothing, is a step of the protocol |
| TransferManager.TransferTransactionManager.PerformTransfer | internal/services/storage/transfer_transaction_manager.go:133-172 | success means all lines were tried and nothing is left in any store of the record |
| TransferManager.TransferTransactionManager.ProcessSTX | internal/services/storage/transfer_transaction_manager.go:100-112 | a dropped record is delivered in full if and only if no setup took some of it; on failure it stays live |
| TransferManager.TransferTransactionManager.RestoreIfExists | internal/services/storage/transfer_transaction_manager.go:114-131 | success means no live record holds a subject of the request |
| TransferManager.TransferTransactionManager.PingTransaction | internal/services/storage/transfer_transaction_manager.go:82-94 | success with at most ten live records leaves none |
| TransferManager.TransferTransactionManager.DumpStores | internal/services/storage/transfer_transaction_manager.go:190-204 | success means the stores are empty; items are taken only from live records that hold one of them with something staged there |
| TransferManager.TransferTransactionManager.SetupTransaction | internal/services/storage/transfer_transaction_manager.go:174-262 | for any admitted request: ends idle with nothing stored, or with an open database transaction for it and each of its stacks and fluids, whole, in one of the 27 slots or a tank of its own; a request that shares takes from no record |
| TransferManager.TransferTransactionManager.InsertTransactionUncommitted | internal/dao/export_transaction.go:48-74 | the open transaction has a new id, and nothing is stored yet |
| TransferManager.TransferTransactionManager.CreateExportTransaction | internal/services/storage/transfer_transaction_manager.go:264-296 | a handle is handed out, with the lock held and everything laid out, exactly when the setup succeeded; a refused request changes nothing |
| TransferManager.TransferTransaction.Commit | internal/services/storage/transfer_transaction_manager.go:23-35 | the first call stores a record that sends each place what the request asks for there, and delivers and drops it, or leaves it live or unstored, and releases the lock once; after success each place has got what was asked for; later calls do nothing |
| TransferManager.TransferTransaction.Rollback | internal/services/storage/transfer_transaction_manager.go:37-46 | the first call only gives up the open transaction and the lock; later calls do nothing |
| TransferManager.UseHandle | internal/services/storage/transfer_transaction_manager.go:23-46 | any sequence of commits and rollbacks on a handle releases the lock exactly once |
| Deliveries.RecordSends | internal/services/storage/transfer_transaction_manager.go:206-252 | the lines of a stored record send each place, slot by slot, what the entries of the request ask for there, to the last item |
| Deliveries.ArrivedIsBrought | internal/services/storage/transfer_transaction_manager.go:133-172 | what has arrived of an item at a place is the sum of what the stored transfers brought there, each counted by itself |
| Deliveries.DeliveredInFull | internal/services/storage/transfer_transaction_manager.go:133-172 | a transfer that was delivered in full has brought each place what its lines send there |
| ProcessingRequest.BuildRequest | internal/services/worker/processing_crafter_worker.go:250-308 | a request exactly if the machine has the inlets the recipe needs: fluids to the tank without their prefix, other ingredients and then catalysts to the slots they name or the next; no entry is without a store |
| ProcessingRequest.RequestAmounts | internal/services/worker/processing_crafter_worker.go:250-308 | a request asks for one repeat's ingredients and catalysts, to the last item |
| ProcessingRequest.RequestIsDue | internal/services/worker/processing_crafter_worker.go:250-308 | a request asks for what one repeat is due place by place: at each slot of the inventory the solid lines that name it or come next, and the fluids at the tank |
| ProcessingRequest.SlotsFollow | internal/services/worker/processing_crafter_worker.go:266-308 | lines that name no slot fill the slots after the last one that does, or slots 1, 2, 3 and so on |
| ProcessingRequest.AdmittedIff | internal/services/storage/transfer_transaction_manager.go:264-283 | a recipe's request is admitted if and only if it has a line, at most 27 lines of items, an item store if it has one, and no more fluids than there are named tanks |
| ProcessingRequest.RefusedRecipes | internal/services/storage/transfer_transaction_manager.go:264-283 | 28 item lines, two fluids with one tank, or no input at all are refused, though the machine has all inlets |
| ProcessingRequest.AdmittedRecipes | internal/services/storage/transfer_transaction_manager.go:264-283 | 27 item lines, and two fluids with two tanks, are admitted |
| ProcessingWorker.WriteStart | internal/services/worker/processing_crafter_worker.go:317-330 | the commit of one repeat with the machine's wait row, or the repeat taken off and the craft gone with its last, or a refusal without change |
| ProcessingWorker.StartCraft | internal/services/worker/processing_crafter_worker.go:250-335 | the record and the craft's tables become durable together or not at all, whatever fails; without the inlets, an admitted request or a pending row nothing does; the lock is released |
| Coupling.JointStepKeepsInv | internal/services/worker/processing_crafter_worker.go:310-335 | every step of transfers and tables together keeps the transfers exact, the ledger valid and each record that of its start |
| Coupling.StartsMatchRecords | internal/services/worker/processing_crafter_worker.go:310-335 | between two states of a run a craft's open repeats go down by exactly the transfers stored for it and the repeats committed without one |
| Coupling.StoreReleasesLines | internal/services/worker/processing_crafter_worker.go:310-335 | the commit that stores a record releases exactly what its lines hold, but for the catalysts |
| Coupling.EachJobIsBrought | internal/services/worker/processing_crafter_worker.go:250-335 | in every state of every run what has arrived anywhere is what the stored transfers brought, and each that was dropped untouched brought every slot and tank exactly what one repeat of its craft is due there |
| Coupling.CraftGetsItsInputs | internal/services/worker/processing_crafter_worker.go:310-335 | a craft that its machine brought to its end has had one transfer for each repeat, for which nothing had arrived before; each has one repeat's inputs, sends each slot and tank what is due there, and has brought just that unless a setup took some |
| CraftBatch.CraftWorker.BatchSize | internal/services/crafter/worker.go:136-160 | no limit exactly for a line above a stack; one with catalysts; otherwise the recipe's own limit, or the greatest number of repeats with which every result and ingredient line is within a stack |
| CraftBatch.CraftWorker.TransferItems | internal/services/crafter/worker.go:233-261 | panics exactly for an ingredient's slot outside the 20 marks, the line's place in the list where it names none; otherwise each ingredient goes to its slot and each catalyst to the first slot with a mark that no line before it went to |
| CraftBatch.CatalystsGetTheirOwnSlots | internal/services/crafter/worker.go:247-257 | with fewer lines than marks, a catalyst's slot is no other line's |
| CraftBatch.SlotsBelowAreTaken | internal/services/crafter/worker.go:247-257 | an earlier line went to each slot below that of a catalyst |
| CraftBatch.ExportTotals | internal/services/crafter/worker.go:233-261 | the exports ask for the ingredients and catalysts of the repeats, to the last item |
| CraftBatch.SlotsThatPanic | internal/services/crafter/worker.go:235-241 | a named slot outside the marks, or a twentieth ingredient without one, and nothing else, stops every batch |
| CraftBatch.RoundsProgress | internal/services/crafter/worker.go:161-173 | after k rounds k full batches or all repeats are crafted, exactly their ingredients are released, and no other craft is touched |
| CraftBatch.BatchRun | internal/dao/crafts.go:169-311 | a craft of R repeats is gone after exactly ceil(R/m) rounds and has released the ingredients of R repeats |
| CraftBatch.FinishesIff | internal/services/crafter/worker.go:154-160 | the craft ever finishes if and only if the limit is positive |
| CraftBatch.FullBatchFitsIff | internal/services/crafter/worker.go:233-247 | no ingredient export exceeds a stack if and only if a full batch does not |
| CraftBatch.DefaultBatchFits | internal/services/crafter/worker.go:136-160 | without a limit of its own, or with catalysts, a recipe's exports never exceed a stack |
| CraftBatch.CraftWorker.Craft | internal/services/crafter/worker.go:117-174 | one batch: given up, by a panic too, stopped before the commit or before the completion, or done; nothing is committed before all its lines were asked for in their slots |
| CraftBatch.CraftWorker.Restore | internal/services/crafter/worker.go:94-115 | a pending craft starts a batch, a committed one is completed once the machine is done |
| CraftBatch.CraftWorker.Work | internal/services/crafter/worker.go:94-232 | for any recipe, however often it is interrupted, the craft goes through the same rounds; it is gone after exactly all of them, and only with a positive limit |
| WarmIndex.SetKeepsIff | internal/services/storage/multiple_chests_store.go:90-108 | writing a stack keeps stacks, totals, used slots and counters right if and only if the amount is positive or the slot was in use |
| WarmIndex.FreeIffEmptySlot | internal/services/storage/multiple_chests_store.go:111-118 | a counter is positive if and only if some slot in range is unused |
| WarmStore.MultipleChestsStore.SetStackSize | internal/services/storage/multiple_chests_store.go:90-108 | the in-place updates of the four parts |
| WarmStore.MultipleChestsStore.Add | internal/services/storage/multiple_chests_store.go:47-68 | the index mirrors the old content together with the listed inventory |
| WarmStore.MultipleChestsStore.Sync | internal/services/storage/multiple_chests_store.go:37-68 | after clearing and adding the index mirrors the listing |
| WarmStore.AllContentsShow | internal/services/storage/multiple_chests_store.go:37-68 | what is noted for a slot is what the listing shows there, and nothing is noted elsewhere |
| WarmStore.MultipleChestsStore.FindEmptySlot | internal/services/storage/multiple_chests_store.go:110-118 | an unused slot in range, or no counter is positive |
| WarmStore.MultipleChestsStore.ImportToEmptySlot | internal/services/storage/multiple_chests_store.go:110-131 | the index stays whole, and exact if and only if the slot took all it was offered |
| WarmStore.MultipleChestsStore.ImportStack | internal/services/storage/multiple_chests_store.go:133-171 | returns what really came in. The stacks there are get asked first, each once and for its room or what remains, until nothing remains or all with room were asked; only then an empty slot, for the rest. If every stack takes what it is asked for, that is the amount or all their room; if the amount is not reached without drift, no slot is free and each stack is full or took less. The index stays whole in every case, an error in mid-loop included, and exact unless an empty slot took less or a failed call moved something |
| WarmStore.MultipleChestsStore.ExportStack | internal/services/storage/multiple_chests_store.go:173-196 | returns what really left. Each stack is asked once, for what it holds or what remains, until nothing remains or all were asked; if every stack gives what it is asked for, the result is the amount or all there was; if the amount is not reached, all that is left is in stacks that gave less. Exact unless a failed call moved something |
| StackMoves.FullMoves | internal/services/storage/multiple_chests_store.go:149-162 | moves that take all they are asked for come to the amount or to the summed room, whichever is less, and none come to more |
| StackMoves.FullOrShort | internal/services/storage/multiple_chests_store.go:149-162 | moves that come to less than the amount have given each stack all its room, but for those that took less than they were asked for |
| WarmStore.SlotShifts | internal/services/storage/multiple_chests_store.go:119-125 | noting one number where another is held puts the item's total off by their difference, and nothing else |
| WarmStore.QuietCallsStayExact | internal/services/storage/multiple_chests_store.go:110-196 | over any sequence of imports and exports an exact index stays exact up to the first failure or drift, the reports adding up, and the first drift puts it off |
| WarmStore.MultipleChestsStore.Serve | internal/services/storage/multiple_chests_store.go:133-196 | the calls run one after another on the same index and chests |
| Text.AtoiItoa | internal/server/resources/components/helpers.go:102-114 | a printed number parses back exactly in the 64-bit range |
| Text.AtoiReads | internal/services/recipe/recipe_manager.go:134-161 | a plus sign and leading zeros are read over; a sign alone, nothing, or a space makes no number |
| Text.TrimKeepsTrimmed | internal/services/recipe/recipe_manager.go:125-130 | trimming leaves exactly the trimmed strings alone |
| Text.TrimTakesSpace | internal/services/recipe/recipe_manager.go:125-130 | what trimming takes away at either end is space |
| RecipeForm.RecipeItemsToParams | internal/server/resources/components/helpers.go:102-114 | the printing loop |
| RecipeForm.PrintedGroups | internal/server/resources/components/helpers.go:102-114 | the form has one id for each item and under it exactly the item's fields |
| RecipeForm.ParseItemsParams | internal/services/recipe/recipe_manager.go:37-68 | in any order of visits: one item for each id, or the complaint of some id |
| RecipeForm.ParsedMeans | internal/services/recipe/recipe_manager.go:125-161 | an id parses to the item that its values describe, an amount left out being one and a slot left out none, and is refused exactly if they describe none, with the first complaint that applies |
| RecipeForm.ParsedIsClean | internal/services/recipe/recipe_manager.go:125-161 | whatever parses has a non-empty, trimmed uid and role |
| RecipeForm.RoundTripIff | internal/services/recipe/recipe_manager.go:37-68 | parsing the printed form gives the items back, in some order, if and only if every uid and role is non-empty and trimmed |

## Hypotheses

- Recipe amounts are positive, recipes have a result, and recipes stay fixed while plans and crafts
  refer to them. Least plan, executability and progress are for single-result recipes: byproducts
  are credited without regard to order (internal/services/crafter/planner.go:173-186).
- Runs of the ledger commit between one and all repeats and complete committed rows; the lemmas on
  single transactions, and `Deadlock.UnservedNeverEnds`, say what happens otherwise.
- The progress theorems are about one accepted plan without negative goal counts and without outside
  withdrawals; items may be delivered at any time. A count report is of what is in storage when it is
  used.
- That the server can finish a plan is about what it can do next. The clients and machines are there
  and make what they were given, and a machine's condition and inlets come to let it start; machines
  give catalysts back with the results, nothing else reaches their outlets, and what leaves a machine
  is imported, by its outlets or by an importer. The stores, slots and tanks that are named exist, no
  two lines of a recipe go to one slot of a machine or of a client's buffer, and a stored transfer gets
  delivered. An export for a client finds, and has room for, all that it asks for
  (internal/services/crafter/worker.go:242 does not look at the counts): its recipes list no fluids,
  and a batch is within a stack (`CraftBatch.FullBatchFitsIff`).
- One machine works for each craft type. Queries for crafts, which do not sort, give the rows in the
  order of their ids. Queries that stop at 50 rows, for crafts (internal/dao/crafts.go:365) and for the
  items that some plan is short of (internal/dao/item_reserve.go:137), are taken to give all of them.
  A worker's pass may stop after any craft. A run in turn (`CodeRuns.InTurn`) takes the first craft of
  a queue each time.
- In the theorems about transfers the transaction tanks are distinct and the item store is not one of
  them (`Transfer.GoodConfig`). A request that would lock one store twice is refused: the subjects of
  stored transfers have a unique index (internal/dao/export_transaction.go:33-34). `CodeRuns.Served`
  asks for distinct stores only where they are used.
- Replays by the periodic ping are serialised with setups, although `pingTransaction` does not take
  the lock; a move whose reply is lost happens before the caller goes on; emptying a store that
  reports success leaves it empty. Requests ask for positive amounts, as those made from recipes do.
- While the transaction that stores a transfer is open, nothing else writes to the database: it holds
  the write lock from its first insert on. The craft that a machine starts is still of the recipe
  that was read with it, where its row can be committed at all; `LedgerInvariant.CommitKeepsIff` says
  what happens otherwise.
- Chest listings have distinct slots in range and no empty stacks, and inventories have distinct
  names.

## Left out

- The order in which `sort.Strings` breaks ties (internal/services/crafter/planner.go:64-68) and in which the related items are sorted: the theorems hold for every order.
- Integer overflow, SQL and remote error values, row scanning, logging, real time and ping channels.
- The goal rows of a plan, which nothing in the modelled code reads back.
- TransferTransactionManager.PingTransaction: does not model a ping that runs beside a setup, because the two are taken as serialised.
- A remote move that happens after its caller has timed out and gone on.
- The work of several plans at once in the progress theorem: the planner reads stored counts without subtracting reserves, so two plans may count on the same items.
- The reagent modes and craft conditions of machines, and the slots that results are looked for in: they decide when a craft starts or completes, not how much it takes.
- How often a plan with several repeats of a step with catalysts needs a ping: a check submits one of them, and whether another check comes depends on what is stored of the results; `Completion.IdlePlanGoesOnIff` answers it for each idle state.
- Which plans with used-up catalysts on shared machines or clients still finish in every order of their crafts: `Queues.QueueHoldsUpThePlan` shows that not all do.
- The cold store and the combined store: each repeats the totals argument of the warm store for one inventory and adds two results; they would add only easy members.
- `MultipleTanksStore`, `ClearActualReserves`, recipe edits during a run, `PlayerManager.SendItems` and the exporter: they bypass the ledger or the index.
- HTTP, authentication, templates, WebSocket transport, the Lua clients, configuration and the import commands: I/O and UI.
