# POS backend: a verified model of its algorithms and protocols

This project models the parts of the multi-tenant POS backend whose correctness is not visible in any single
function, and proves what they are for. `dafny verify dfyconfig.toml` checks everything.

| files | models |
|---|---|
| `Graphs`, `Tarjan`, `DeletionPlan`, `Cleanup` | the tenant clean-up script: strongly connected components of the foreign-key graph, which keys to null, the deletion order, and the statements it executes |
| `ChangeFeed`, `CommitOrder`, `AccessTouch`, `AccessCommits`, `Backfill` | the offline change feed: numbers drawn at COMMIT, pulls, which users a change of access touches, and the numbering of existing rows |
| `StockLevels` | the per-position balance kept by a trigger on the movement ledger |
| `Idempotency`, `Waiting` | the Idempotency-Key protocol, and how long its waiters sleep |
| `Fifo`, `Inventory` | FIFO cost, stock adjustments, and the migration that aligns cost layers with the ledger |
| `Accounts`, `Journal` | the chart of accounts as a forest, and the life of journal entries over it |
| `RateLimit` | the in-process sliding-window rate limiter |
| `Options`, `Collections` | what several of these share |

## Main results

* **Tarjan's algorithm** as written (explicit `index`, `low`, `stack`, `on_stack`, `comp_of`, recursive `visit`) gives
  two tables the same component exactly when each reaches the other (`Tarjan.FindComponents`).
* **The deletion planner** never reaches its "Unresolvable FK ordering" exit, gives up exactly when a NOT NULL key
  joins two different tables of one cycle, and otherwise its plan keeps every foreign key and NOT NULL column after
  every statement, whatever rows triggers insert behind it, and leaves exactly the other tenants' rows (`DeletionPlan.MakePlan`,
  `Cleanup.CleanUp`).
* **The change feed**: in every interleaving of transactions, aborts and pulls, the numbers the committed transactions
  drew are, in commit order, exactly 1, 2, 3, ... (`CommitOrder.SeqOrderIsCommitOrder`), and no committed row is left
  behind the device's cursor (`CommitOrder.NoChangeIsSkipped`), provided at most one number is committed between the
  first and the last of a pull's queries. That proviso is exact (`ChangeFeed.NeverSkipsIffOneStamp`), see below. From any
  such state, pulling to the end leaves the device with exactly the server's live rows (`CommitOrder.CatchUp`).
* **Access**: in every interleaving of transactions under row locks, each commit that alters a user's derived access
  touches that user, unless it moves a permission row away from a role the user holds then
  (`AccessCommits.EachCommitTouches`, `AccessCommits.EachChangeOfRightsTouches`). Which users such a move misses is
  stated exactly (`AccessTouch.MoveMissesIff`).
* **Idempotency**: in every interleaving of any number of requests the handler succeeds at most once exactly when none
  of five faults can happen (`Idempotency.AtMostOnceIffSafe`): an owner dying between its handler's commit and the store,
  a handler raising after its own commit, a failing store, an owner that outlives the two-minute cut-off, a request after
  the 24-hour retention. Owners may die before their handler commits. Without the five, every answer given is the one
  stored answer; with them, a request whose handler committed is still told its own response, late errors and deaths
  apart (`Idempotency.OwnAnswer`).
* **Stock**: for any sequence of inserts, updates (moves, soft deletes) and deletes, `stock_levels` is the sum of the
  live movements under each key. `get_fifo_cost` is the mean cost of the oldest units; adjustments keep layers equal to
  the ledger in quantity and in value and never let a covered position go negative; the audit trail's quantities are the
  true ones.
* **Accounts and journal**: over any run of calls the accounts stay a forest, the parent check without a visited set
  terminates and refuses exactly the assignments that would close a cycle, every line refers to a live account of
  its business, posted entries never change, and every business's trial balance over its posted lines is nil.
* **Rate limiting**: unless an earlier call on the key used a shorter window, a hit is refused exactly when `count`
  allowed hits lie in its window, and a purge changes no answer to a hit whose window is no longer than the key's longest
  (`RateLimit.PurgeChangesNoAnswer`). For a key with one rate no window ever holds more than `count`, and the returned
  wait is the least whole number of seconds that works. A key used with one window is answered right with another exactly
  when that is no longer (`RateLimit.AnswersRightIffNotLonger`).

## Where the code falls short

* `README.md:203-205` says a pull can never skip a row. `sync_feed.pull` issues one query per entity
  (`app/services/sync_feed.py:465-471`), each a READ COMMITTED statement that sees what has committed by then. If two or
  more numbers are committed between the first and the last query, a page can contain the later one and not the earlier,
  and the cursor passes it. `ChangeFeed.TwoStampsCanSkip` gives such a history for every number of entities and every
  pair of positions; `ChangeFeed.NeverSkipsIffOneStamp` states the exact condition. A pull whose queries share one
  snapshot (all positions equal) satisfies it.
* Services commit inside the handler and then read the result back (`app/services/sale_service.py:691-699`,
  `app/services/adjustment_service.py:284-292`). If that read raises or is cancelled, `run_idempotent` releases the key
  (`app/core/idempotency.py:202-204`) and a retry runs the handler again (`Idempotency.LateRaiseRunsTwice`).
* `sync_touch_role_perm` looks only at the new role of an updated permission row
  (`alembic/versions/019_offline_sync.py:287`), so a move can leave the old role's users untouched. Touching is complete
  for transactions that move rows from one role to another only if the two are one role
  (`AccessTouch.NoneMissedIffSameRole`). The application only inserts and deletes such rows.
* `stock_levels` stores a missing variation under the zero UUID, so a variation that is the zero UUID shares its row.
  `StockLevels.LevelIsBalance` says exactly when a level is still the position's own balance.
* `InMemoryRateLimiter` drops history when one key is used with a window and then with a longer one.

## Reading the model

State that the program updates in place is a class (or, where many parties step on a shared database, a transition
system whose runs are quantified over). Each method is proved against a specification stated in other terms: reachability
for Tarjan, unit-by-unit stock for FIFO, a log of calls for the rate limiter, sums over rows for the trigger. Ghost fields
record history (`seen`, `history`, `log`, `blocks`). Table names, ids and UUIDs are numbers, money and quantities are
whole numbers of the smallest stored unit, and time is a number.

Assumptions that are the system's own: references stay within one tenant and the rows of the cleaned tables are in the
planner's scope; a row written by an open transaction stays locked until it ends, and so does the counter row, from
the first number drawn (a commit's triggers therefore fire as one step in `AccessCommits`); the rate
limiter's clock never goes back; account and journal calls are atomic (only posting takes a row lock).

## Model

| member | source | states |
|---|---|---|
| Tarjan.Finder.Push | scripts/cleanup_test_data.py:82-85 | numbers a table, sets its low-link and puts it on the stack, keeping stack order equal to numbering order |
| Tarjan.PushKeeps | scripts/cleanup_test_data.py:82-85 | pushing keeps the search invariant: closed components are exact, every open table reaches a table on the call stack |
| Tarjan.Finder.Visit | scripts/cleanup_test_data.py:81-98 | `visit` terminates, keeps the search invariant, leaves everything else as it was, and promises the low-link its caller reads |
| Tarjan.Finder.Follow | scripts/cleanup_test_data.py:86-91 | one edge: recursing, lowering by an open table's index or ignoring a closed one each keep the low-link exact so far |
| Tarjan.VisitReturns | scripts/cleanup_test_data.py:88-89 | after the recursive call the low-link lowered by the child's is right for both |
| Tarjan.VisitSeesEdge | scripts/cleanup_test_data.py:90-91 | an edge to an open table lowers by its index |
| Tarjan.VisitSkips | scripts/cleanup_test_data.py:87-91 | an edge into a finished component never matters |
| Tarjan.Finder.Close | scripts/cleanup_test_data.py:92-98 | popping when low equals index, and not popping otherwise, both keep the invariant |
| Tarjan.Finder.PopTo | scripts/cleanup_test_data.py:93-98 | the `while True` loop ends at v and names v the component of exactly what it popped |
| Tarjan.NamedComponents | scripts/cleanup_test_data.py:92-98 | what is popped is one whole component: mutually reachable, and no table of it elsewhere |
| Tarjan.Finder.VisitAll | scripts/cleanup_test_data.py:101-103 | visiting from every table not yet numbered numbers them all |
| Tarjan.FindComponents | scripts/cleanup_test_data.py:77-103 | two tables have the same component exactly when each reaches the other along foreign keys |
| DeletionPlan.ScopedKeys | scripts/cleanup_test_data.py:66-70 | lists exactly the declared keys whose parent is scoped |
| DeletionPlan.BuildGraph | scripts/cleanup_test_data.py:72-75 | builds the graph of child to other parent |
| DeletionPlan.Classify | scripts/cleanup_test_data.py:105-113 | splits keys into nulled columns (each nullable in the key's own table), ordering edges and unbreakable keys, reporting one exactly when one exists |
| DeletionPlan.SomeTableReady | scripts/cleanup_test_data.py:121-124 | among any remaining tables one is referenced by no other remaining one, so the loop is never stuck |
| DeletionPlan.Layer | scripts/cleanup_test_data.py:115-127 | the rounds end with every table placed once, each edge's child before its parent, and nothing stuck |
| DeletionPlan.Sorted | scripts/cleanup_test_data.py:122-122 | orders a round's tables without losing or repeating one |
| DeletionPlan.MakePlan | scripts/cleanup_test_data.py:51-127 | never unresolvable; refuses exactly when a key with a NOT NULL column of its own joins two different tables of a cycle; otherwise the plan is correct and nulls only nullable columns |
| DeletionPlan.PlanCorrect | scripts/cleanup_test_data.py:105-127 | nulled columns are exactly those of nullable keys on cycles, every other key is deleted child first |
| Cleanup.PrefixSafe | scripts/cleanup_test_data.py:232-235 | after any prefix of the order each emptied parent's keys are nulled or their child emptied before |
| Cleanup.CleanedIntegrity | scripts/cleanup_test_data.py:226-235 | nulling and emptying a safe set of tables for some tenants leaves no dangling key, given same-tenant references |
| Cleanup.Connection.NullColumn | scripts/cleanup_test_data.py:227-231 | one UPDATE: skipping rows already NULL is the same as nulling them all |
| Cleanup.Connection.NullAll | scripts/cleanup_test_data.py:227-231 | all UPDATEs, with integrity after each |
| Cleanup.Connection.DeleteAll | scripts/cleanup_test_data.py:210-235 | all DELETEs, skipping tables counted empty before, with integrity after each and only triggers' rows added |
| Cleanup.Connection.Apply | scripts/cleanup_test_data.py:226-239 | executing a correct plan keeps every foreign key and NOT NULL column after every statement, lets the businesses go last, and leaves exactly the other tenants' rows, whatever rows triggers insert for the tenants |
| Cleanup.ExtraIntegrity | alembic/versions/019_offline_sync.py:357-381 | rows a trigger inserts into a table that references no cleaned table break no reference |
| Cleanup.CleanUp | scripts/cleanup_test_data.py:51-239 | planning and executing: goes through exactly when no key blocks, every foreign key and NOT NULL column holds after every statement, exactly the tenants' rows go |
| ChangeFeed.SelectRows | app/services/sync_feed.py:228-249 | returns the first `limit` numbers after the cursor of one entity's current rows, ascending |
| ChangeFeed.Fetch | app/services/sync_feed.py:465-468 | one query of limit + 1 rows per entity, each over what had committed by then |
| ChangeFeed.SortAndCut | app/services/sync_feed.py:469-471 | the page is the `limit` smallest of what came back |
| ChangeFeed.MergeIsFirst | app/services/sync_feed.py:465-471 | limit + 1 rows per entity suffice: the page is the first `limit` of everything pending, and has_more is exact |
| ChangeFeed.PullKeepsNoSkip | app/services/sync_feed.py:465-483 | if at most one number committed between first and last query, nothing is behind the new cursor |
| ChangeFeed.TwoStampsCanSkip | app/services/sync_feed.py:465-483 | for any query positions two or more apart, a history in which an up-to-date device loses a row |
| ChangeFeed.NeverSkipsIffOneStamp | app/services/sync_feed.py:465-483 | pulls never skip exactly when first and last query are at most one number apart |
| ChangeFeed.NoSkipGrows | app/services/sync_feed.py:465-483 | later commits never put anything behind a cursor |
| ChangeFeed.Device.Apply | README.md:246-246 | applying a page in order gives each listed row its latest image, removes tombstones, leaves the rest, moves the cursor |
| ChangeFeed.Device.PullPage | app/services/sync_feed.py:465-487 | one request is a pull in the sense of the lemmas, from query to cursor |
| ChangeFeed.Device.PullAll | README.md:246-246 | with no new commits, pulling until has_more is false ends with exactly the server's live rows |
| ChangeFeed.LastPageReachesEnd | app/services/sync_feed.py:470-479 | when has_more is false and nothing committed after the first query, everything committed has been delivered |
| CommitOrder.NextKeepsInv | alembic/versions/019_offline_sync.py:222-254 | every step of every transaction keeps rows, counter and history together, and history only grows |
| CommitOrder.FireKeepsInv | alembic/versions/019_offline_sync.py:224-251 | a deferred trigger draws the next number under the counter lock, or none if the row is gone |
| CommitOrder.CommittedRows | alembic/versions/019_offline_sync.py:232-254 | a commit publishes rows whose numbers are their latest positions in the history |
| CommitOrder.CommittedDrawn | alembic/versions/019_offline_sync.py:222-230 | the numbers a commit's triggers drew follow all published before, and the new counter is the last of them |
| CommitOrder.CommittedWriters | alembic/versions/019_offline_sync.py:247-250 | every row carries a number its last writer drew |
| CommitOrder.AbortLeavesNoGap | alembic/versions/019_offline_sync.py:222-234 | an abort gives back every number it drew: counter, rows and what anyone sees of the counter are as before |
| CommitOrder.CommitStampsEveryWrite | alembic/versions/019_offline_sync.py:232-254 | every row in a committing transaction's writes gets a number above all earlier ones |
| CommitOrder.EveryTouchIsStamped | alembic/versions/019_offline_sync.py:232-304 | over every run: once a transaction executed a write and commits, the row and every existing row its trigger touches carry numbers above all earlier ones, and the row its last image |
| CommitOrder.TouchKeepsImage | alembic/versions/019_offline_sync.py:257-265 | a row a transaction only touched keeps its image |
| CommitOrder.MayAct | alembic/versions/019_offline_sync.py:232-254 | nobody waits for the counter before COMMIT: writes wait only for the row |
| CommitOrder.CanFinish | alembic/versions/019_offline_sync.py:232-254 | a committing transaction whose rows and counter nobody else holds can fire all its triggers and commit |
| CommitOrder.RowsAreCurrent | app/services/sync_feed.py:228-249 | the table's rows are exactly the history's latest stamps |
| CommitOrder.PendingIsTheQuery | app/services/sync_feed.py:228-249 | `change_seq > :since` selects exactly what the feed calls pending |
| CommitOrder.EventKeepsInv | alembic/versions/019_offline_sync.py:232-254 | every database step, query and finished pull keeps the device's no-skip invariant |
| CommitOrder.SeqOrderIsCommitOrder | alembic/versions/019_offline_sync.py:222-254 | in every interleaving the numbers drawn by committed transactions, in commit order, are exactly 1..counter; each row's number is its last writer's, and no two rows share one |
| CommitOrder.NoChangeIsSkipped | alembic/versions/019_offline_sync.py:232-254 | in every such run each committed row is up to date on the device or above its cursor |
| CommitOrder.CatchUp | README.md:246-246 | from any such world, pulling to the end with no commit in between leaves the device with exactly the live rows of the server's tables |
| AccessTouch.UntouchedAgrees | alembic/versions/019_offline_sync.py:266-304 | a user no trigger touches, and no move of a permission row bereaves, keeps the same assignments and the same rows of every role held at the end |
| AccessTouch.ChangedAccessIsTouched | alembic/versions/019_offline_sync.py:266-304 | any transaction that alters a user's roles, permission keys or branch scope touches the user, or moves a permission row away from a role the user holds at the end |
| AccessTouch.MoveMissesIff | alembic/versions/019_offline_sync.py:284-292 | rewriting a permission row changes a user's access untouched exactly when it leaves a live role the user holds, no other row grants the same, and the user does not hold the role it goes to |
| AccessTouch.NoneMissedIffSameRole | alembic/versions/019_offline_sync.py:284-292 | touching is complete for all transactions that move permission rows from one role to another exactly when the two are the same role |
| AccessCommits.RecordedFires | alembic/versions/019_offline_sync.py:269-304 | deferred triggers, firing with OLD rows recorded earlier, touch whom they would if the statements ran at COMMIT |
| AccessCommits.EachCommitTouches | alembic/versions/019_offline_sync.py:266-304 | in every interleaving of transactions and aborts, each single commit that alters a user's access touches that user, or moves a permission row away from a role the user holds then |
| AccessCommits.EachChangeOfRightsTouches | app/dependencies.py:201-271 | the same for anything the application derives: role ids and names, permission keys, allowed branches |
| AccessCommits.StatementsLand | alembic/versions/019_offline_sync.py:389-403 | what a transaction last did to a row is what its commit publishes, whatever commits in between |
| AccessTouch.AccessGivesRights | app/dependencies.py:201-271 | role names, permission keys and allowed branches depend on a user's access alone |
| AccessTouch.OnlyConcernedTouched | alembic/versions/019_offline_sync.py:266-304 | only users named by the assignment row, or holding its role at COMMIT, are touched |
| AccessTouch.BranchScope | app/dependencies.py:220-250 | all branches for an owner and for a user without a branch holding an unscoped assignment or none; else exactly the user's own and the assigned ones |
| AccessTouch.AgreeOnAssignment | app/dependencies.py:201-271 | assignments that agree are effective alike and give the same name, branch scope and permission keys |
| Backfill.BackfillTable | alembic/versions/019_offline_sync.py:73-90 | one table's rows get the numbers after each business's counter, in order, and counters advance by as many |
| Backfill.BackfillAll | alembic/versions/019_offline_sync.py:204-219 | across all tables each business's numbers are exactly 1..last_seq, each once |
| StockLevels.Ledger.ApplyStock | alembic/versions/019_offline_sync.py:357-374 | the upsert adds delta under one key, a missing row counting as 0 |
| StockLevels.Ledger.Trigger | alembic/versions/019_offline_sync.py:324-356 | for every operation levels move by minus the old row's live quantity plus the new one's |
| StockLevels.Ledger.Execute | alembic/versions/019_offline_sync.py:324-381 | one statement with its trigger keeps levels in step with the ledger |
| StockLevels.Ledger.ExecuteAll | alembic/versions/019_offline_sync.py:324-381 | after any sequence of statements every level is the sum of the live movements under its key |
| StockLevels.Ledger.Backfill | alembic/versions/019_offline_sync.py:206-217 | the initial fill fails exactly on two groups with one key and otherwise starts the levels in step |
| StockLevels.SumSplitsByPosition | alembic/versions/019_offline_sync.py:363-367 | what a key stores is its position's balance plus that of the position sharing the key |
| StockLevels.SharedKey | alembic/versions/019_offline_sync.py:363-367 | two positions share a key exactly if they differ at most in a missing against a zero-UUID variation |
| StockLevels.LevelIsBalance | alembic/versions/019_offline_sync.py:357-374 | a level is the position's balance exactly when the position sharing its key sums to nothing |
| StockLevels.NoZeroUuidLevelIsBalance | alembic/versions/019_offline_sync.py:357-374 | so it is whenever no live movement names the zero UUID |
| Idempotency.StepKeepsInv | app/core/idempotency.py:49-139 | every step of every request, early deaths included, keeps at most one owner, one success and one answer |
| Idempotency.OneAnswer | app/core/idempotency.py:142-217 | without the five faults every answer returned or replayed is the single stored response for the same fingerprint |
| Idempotency.OwnAnswer | app/core/idempotency.py:200-217 | in every run, faults included, a request whose handler committed ran it once and stores, then returns, its own response, after a failing store too, unless the handler raised late or its process died |
| Idempotency.ErrorMeansNoSuccess | app/core/idempotency.py:200-217 | a request that is told anything but its own response had no successful handler, late errors and deaths apart |
| Idempotency.RefusalsHaveReasons | app/core/idempotency.py:184-198 | refused as a different request only if one used the key, as still processing only after 76 sleeps |
| Idempotency.NeverStuck | app/core/idempotency.py:175-217 | until it is done every request has a next step that needs no fault |
| Idempotency.OrdinaryRun | app/core/idempotency.py:175-217 | the first request is answered, one waiting beside it sleeps and replays, a different one is refused |
| Idempotency.LastMoments | app/core/idempotency.py:34-35 | an owner may take the full two minutes, and its answer is replayed for the full 24 hours |
| Idempotency.FailingRun | app/core/idempotency.py:200-204 | a failing handler's request is told so and the key is free |
| Idempotency.InFlightIffOwned | app/core/idempotency.py:49-139 | a row without a response exists exactly while one owner is between claim and store or release, if and only if no owner can die before its handler commits |
| Idempotency.OrphanIsFreed | app/core/idempotency.py:125-139 | a dead owner's claim has no success behind it, and once stale the next release removes it |
| Idempotency.OnlyTheClaimantRuns | app/core/idempotency.py:175-201 | only the request whose fingerprint the row holds can be running, and never after a success |
| Idempotency.FailureFreesKey | app/core/idempotency.py:200-204 | where no owner dies, no success and no owner means no row |
| Idempotency.StoredIsFinal | app/core/idempotency.py:100-139 | once stored no step changes the row or starts a handler |
| Idempotency.AnswerIsKept | app/core/idempotency.py:100-139 | whatever goes wrong, until it expires a stored answer stays or another owner's store replaces it under the same claim |
| Idempotency.ExpiredIsForgotten | app/core/idempotency.py:49-62 | once expired a row goes with the purge, and the next claim runs the handler |
| Idempotency.LaterCallsReplay | app/core/idempotency.py:184-190 | whoever reads a stored row replays it, or conflicts if its fingerprint differs |
| Idempotency.SleepsBounded | app/core/idempotency.py:195-198 | in every run, faults included, no request sleeps more than 76 times, and one that has conflicts instead of sleeping |
| Waiting.NextSleep | app/core/idempotency.py:175-198 | adding 0.2 in binary64 reaches 15.0 with the 76th sleep and not before |
| Idempotency.CrashRunsTwice | app/core/idempotency.py:192-217 | with deaths between commit and store the handler can succeed twice |
| Idempotency.LateRaiseRunsTwice | app/core/idempotency.py:200-204 | with handlers that raise after their commit too |
| Idempotency.FailedStoreRunsTwice | app/core/idempotency.py:206-217 | with failing stores too |
| Idempotency.SlowOwnerRunsTwice | app/core/idempotency.py:192-194 | with owners slower than the cut-off too |
| Idempotency.LateRequestRunsTwice | app/core/idempotency.py:56-62 | with requests after the retention too |
| Idempotency.AtMostOnceIffSafe | app/core/idempotency.py:49-217 | the handler succeeds at most once in every run exactly when none of the five faults is possible, deaths before the commit allowed |
| Fifo.GetFifoCost | alembic/versions/016_money_inventory_correctness.py:291-337 | fails exactly on a non-positive quantity or too little visible stock (and by how much), otherwise answers the rounded mean cost of the oldest units |
| Fifo.RoundedIsNearest | alembic/versions/016_money_inventory_correctness.py:335-335 | rounding is to the nearest fourth decimal, ties upwards |
| Fifo.DrainedUnits | app/services/fifo_service.py:136-157 | draining removes exactly the oldest units |
| Fifo.DrainedElsewhere | app/services/fifo_service.py:114-124 | and no unit of any other position |
| Fifo.OldestGoesFirst | alembic/versions/016_money_inventory_correctness.py:312-327 | no layer is drawn on before every older one of its position, by (created_at, id), is used up |
| Fifo.LayerCounts | alembic/versions/016_money_inventory_correctness.py:312-321 | a layer counts exactly if it is live, of the product and variation, and at the branch asked for, if any |
| Fifo.CostSplits | alembic/versions/016_money_inventory_correctness.py:312-327 | the cost of q1 + q2 is that of q1 and then of q2 from what is left |
| Fifo.CostWithinLayersTouched | alembic/versions/016_money_inventory_correctness.py:322-335 | the rounded cost lies between the cheapest and dearest unit taken |
| Fifo.UnitComesFromLayer | alembic/versions/016_money_inventory_correctness.py:312-321 | each unit's cost is a visible layer's |
| Inventory.DrainRows | app/services/fifo_service.py:136-157 | the loop's rows, slices and shortfall are those of draining the oldest units, and the slices cost what the units cost |
| Inventory.StockBook.ConsumeLayers | app/services/fifo_service.py:102-157 | the same for a branch's layers of one item |
| Inventory.StockBook.AddLayer | app/services/fifo_service.py:319-356 | a new layer adds its quantity to its own position only, in (created_at, id) order |
| Inventory.StockBook.TakeOut | app/services/fifo_service.py:286-316 | takes the oldest units at their cost, the rest at the last known cost; when covered, the weighted cost is what `get_fifo_cost` answered before |
| Inventory.StockBook.MoveSlices | app/services/fifo_service.py:384-403 | one outgoing movement per slice moves the balance by minus their sum |
| Inventory.StockBook.AdjustLine | app/services/adjustment_service.py:196-250 | one line moves ledger and layers of its position alike (as far as layers cover), in quantity and in value, and no other; stock in opens a layer at the line's cost and date |
| Inventory.StockBook.OnHand | app/services/adjustment_service.py:121-138 | reads each line's balance before the change |
| Inventory.StockBook.CheckDemand | app/services/adjustment_service.py:140-156 | passes exactly when every position covers the sum of what the lines take out of it |
| Inventory.CoveredPrefix | app/services/adjustment_service.py:140-156 | a covered position is never negative after any prefix of the lines, in any order |
| Inventory.LineStaysInStep | app/services/adjustment_service.py:180-250 | a covered line keeps layers equal to the ledger where they were |
| Inventory.StockBook.AdjustLines | app/services/adjustment_service.py:180-250 | all lines: each balance moves by its net delta, layers stay in step in quantity and value |
| Inventory.StockBook.Audit | app/services/adjustment_service.py:252-266 | the running quantities bracket each line |
| Inventory.AuditIsTrue | app/services/adjustment_service.py:252-266 | the last audit line of a position ends at its new balance |
| Inventory.StockBook.CreateAdjustment | app/services/adjustment_service.py:87-266 | refuses exactly when not allowed and not covered, changing nothing; else balances, layers, their value and the audit are right and nothing covered goes negative |
| Inventory.StockedCost | app/services/adjustment_service.py:196-217 | stock put into an empty position then costs, in any quantity, what its line says: the client's cost for an opening balance, else the last known one |
| Inventory.LineStaysWorth | app/services/adjustment_service.py:180-250 | where layers hold the balance and are worth the ledger's inventory value, a covered line keeps them so |
| Inventory.StockBook.AdjustAll | app/services/adjustment_service.py:87-266 | any sequence of adjustments without negative stock keeps layers equal to the ledger, in quantity and value, wherever they were, and non-negative balances non-negative |
| Inventory.StockBook.InsertSyntheticLayers | alembic/versions/016_money_inventory_correctness.py:150-197 | each position with live movements ends holding the larger of balance and old layers, every other is unchanged |
| Inventory.BalanceHasCost | alembic/versions/016_money_inventory_correctness.py:303-335 | afterwards a cost exists for every positive quantity up to the balance |
| Accounts.ParentKeepsForest | app/services/accounting_coa_service.py:161-183 | a parent assignment keeps the forest exactly when the account is not the parent or above it |
| Accounts.NewAccountKeepsForest | app/services/accounting_coa_service.py:223-253 | a new account under an existing one keeps the forest |
| Accounts.RootKeepsForest | app/services/accounting_coa_service.py:271-272 | clearing a parent keeps the forest |
| Accounts.ChildIsNew | app/services/accounting_coa_service.py:167-183 | the walk never meets an account twice, although it keeps no visited set |
| Accounts.NothingFound | app/services/accounting_coa_service.py:167-183 | an exhausted walk shows the parent is not below the account |
| Accounts.NoParentCycle | app/services/accounting_coa_service.py:161-183 | terminates and refuses exactly the parents that would close a cycle |
| Accounts.BuildTree | app/services/accounting_coa_service.py:57-70 | children are the listed accounts naming the node, roots those whose parent is not listed, in listing order |
| Accounts.PlacedOnce | app/services/accounting_coa_service.py:64-69 | every listed account is placed exactly once: under its parent if that is listed, else among the roots |
| Accounts.SiblingsInOrder | app/services/accounting_coa_service.py:64-67 | children of one node come in the order of the listing |
| Accounts.RootsInOrder | app/services/accounting_coa_service.py:64-69 | and so do the roots |
| Accounts.EveryAccountHangs | app/services/accounting_coa_service.py:57-70 | every account of a list drawn from a forest hangs below a root |
| Journal.ValidateParent | app/services/accounting_coa_service.py:142-158 | accepts exactly no parent, or a live one of the business that closes no cycle |
| Journal.PatchFields | app/services/accounting_coa_service.py:274-311 | assigns exactly the request's fields, refusing a system account's code, a taken code, an unknown type, or a type change of an account with lines |
| Journal.Books.CreateAccount | app/services/accounting_coa_service.py:223-253 | succeeds exactly when types, parent and code allow it, and keeps every invariant |
| Journal.Books.UpdateAccount | app/services/accounting_coa_service.py:256-316 | succeeds exactly when all checks pass, then changes exactly the named fields, keeping every invariant |
| Journal.Books.DeleteAccount | app/services/accounting_coa_service.py:319-348 | succeeds exactly for a live, non-system account without live children or lines, keeping every invariant |
| Journal.DeleteKeepsSound | app/services/accounting_coa_service.py:332-348 | deleting such an account leaves every live account's parent live and every line's account live |
| Journal.UpdateKeepsSound | app/services/accounting_coa_service.py:256-316 | an accepted update keeps the forest, unique codes, and frozen types |
| Journal.Books.CreateEntry | app/services/accounting_journal_service.py:270-312 | adds a draft exactly when every account is live and active in the business |
| Journal.Books.UpdateEntry | app/services/accounting_journal_service.py:315-347 | replaces a live draft's lines, exactly when the new accounts are usable |
| Journal.Books.DeleteEntry | app/services/accounting_journal_service.py:350-367 | removes a live draft and its lines, nothing else |
| Journal.Books.PostEntry | app/services/accounting_journal_service.py:370-390 | posts exactly a live draft of two or more lines whose debits less credits come to nothing, on live active accounts |
| Journal.PostedBalances | app/services/accounting_journal_service.py:33-36 | over any list of accounts that covers a business's posted lines, the accounts' turnovers, debits less credits, add up to nothing |
| Journal.Books.ServeAll | app/services/accounting_journal_service.py:270-390 | over any run of calls posted entries and the types they rest on never change, every trial balance is nil, posted entries have two lines or more, lines refer to live accounts |
| RateLimit.DropLeft | app/core/rate_limit.py:60-61 | the popping loop removes exactly the leading entries not after the cutoff |
| RateLimit.DroppedIsWindow | app/core/rate_limit.py:57-63 | what is left of the deque counts the allowed hits in the window, unless a shorter window was used before |
| RateLimit.InMemoryRateLimiter.Hit | app/core/rate_limit.py:50-66 | refuses exactly when `count` allowed hits lie in the window; with one rate the answer is the least wait |
| RateLimit.NoWindowOverfull | app/core/rate_limit.py:50-66 | no window, wherever it ends, holds more than `count` allowed hits |
| RateLimit.RetryIsLeast | app/core/rate_limit.py:63-64 | left alone, the key passes after a whole number of seconds exactly when it is at least the answer |
| RateLimit.SweepAll | app/core/rate_limit.py:68-76 | every deque is swept by its own longest window and the empty ones are removed with their windows |
| RateLimit.PurgeKeepsInv | app/core/rate_limit.py:68-76 | purging keeps every deque the newest part of its key's log, lacking only hits older than some window the key was used with |
| RateLimit.PurgeChangesNoAnswer | app/core/rate_limit.py:68-76 | with and without a purge the limiter answers every later hit alike, if its window is no longer than the longest its key is known with |
| RateLimit.PurgeForgetsForLongerWindow | app/core/rate_limit.py:68-76 | with a longer window a purge can turn a refusal into a pass |
| RateLimit.InMemoryRateLimiter.Purge | app/core/rate_limit.py:68-76 | the same for the limiter's own maps |
| RateLimit.AnswersRightIffNotLonger | app/core/rate_limit.py:50-76 | for any two windows: after every run, sweeps included, in which a key was used with one, a hit with the other is answered as the log of hits demands, exactly when the other is no longer |

## Left out

* Routers, schemas, ORM models, reporting, exports, search, authentication and cryptography: plumbing, or outside the model.
* `app/licensing/keys.py`: its round trips are those of the standard library's base64 and of an abstract signature.
* Clean-up script: choosing tables (`scripts/cleanup_test_data.py:57-63`) and businesses is an input; the recursion limit of 10000, tables without `business_id` and printed counts are not modelled; a foreign key refers to a row, not to column values; no nulled column is `business_id`.
- Cleanup.Connection.Apply: triggers may insert rows only for the tenants and only into tables that reference no cleaned table and go with their business (as `stock_levels` does); what triggers update in rows already there is not represented.
* Change feed: permission and branch filters, signed cursors and their expiry, the snapshot endpoint, the clamp of `limit`, and rebuilding of user, role and settings payloads from later reads; the number of entities a pull asks for is fixed during a run.
- ChangeFeed.PullKeepsNoSkip: does not hold for pulls whose queries are more than one number apart, because the code then skips rows; the exact condition is ChangeFeed.NeverSkipsIffOneStamp.
- ChangeFeed.LastPageReachesEnd: for a pull that ran while more committed, what is behind its cursor is ChangeFeed.PullKeepsNoSkip's business.
* Transactions: which rows a write touches is arbitrary in `CommitOrder` (any list), and `AccessTouch` says which users it must be; updates of untracked columns, which draw no number, and deadlocks other than as aborts; the touches of customers and settings (`alembic/versions/019_offline_sync.py:305-323`). A user's default branch is a column of the user row, which is stamped directly.
- CommitOrder.FireKeepsInv: draws one number per trigger. Postgres evaluates `sync_next_seq` before it waits for a row that another transaction has locked; if that one commits a change of untracked columns, the assignment is evaluated again and the first number is carried by no row.
- AccessTouch.ChangedAccessIsTouched: leaves open users who hold a role a permission row was moved away from, for whom touching can fail; the exact condition for one move is AccessTouch.MoveMissesIff.
* `last_movement_at` of `stock_levels`; the materialised views.
- Idempotency.InFlightIffOwned: an owner that dies leaves its row without a response until it is stale, because nothing removes it earlier.
* Idempotency: header validation, the computation of the fingerprint (a number here), response bodies (numbers), and clocks that differ between processes; time is one integer clock in milliseconds, and no time passes a stored answer's expiry unless late requests are allowed.
* FIFO: the precision Postgres keeps in a quotient before it is rounded to four decimals; quantities and costs are non-negative whole numbers of the fourth decimal.
* Adjustments: document numbers, branch and product checks, notes; the last known cost, and a synthetic layer's cost and date, are arbitrary inputs; `old_values` of the audit entry, keyed by product alone, is not modelled.
* Journal: dates, descriptions, branches, numbers and line order; amounts are cents as stored; interleaved calls, since only posting locks its entry.
* Rate limiter: reading the rate from a string beyond its ranges, client addresses, several processes; the clock is a real number, so floating-point error is left out.
