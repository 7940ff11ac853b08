# Verified model of the liquidity agent's bookkeeping

A Dafny model of the money-and-order bookkeeping in `crates/agent-logic`: what the agent remembers about its
orders, balances, counterparties and prices, and what it decides from that. Objects whose methods update their
fields are classes; each method is proved to take the object's abstract state to a function of the old one, and
the theorems are about those functions over every run. Lock-protected sections are atomic steps, and the
protocols that span threads or the network are state machines over interleaved steps.

| module | subject |
|---|---|
| `Wrappers`, `Decimals`, `MapSums`, `StableSort` | options, saturating decimals, sums over maps, a stable sort |
| `OrderTracking`, `TrackerAccounting`, `FailedSubmits`, `ImportedOrders` | the order tracker, its capacity accounting, its queue of failed submits and its imports over runs |
| `PlacementProtocol`, `PlacementLegality` | placements racing with the proposals that match them; every interleaving as a legal tracker history |
| `GridPricing`, `GridOps`, `GridExecution`, `GridLadders`, `GridBook`, `GridVisit`, `GridCrossing` | rung prices, `uncross`, the operations of a refresh, what they place and cancel in which order, the book they leave, a whole visit, and when it can cross |
| `GridManager`, `GridRecovery` | the grid manager with failing calls, failed cancels and their retry; markets over runs of failing visits, trades and price outages |
| `GridCycle`, `PriceDebounce`, `OrderListing` | rotation over markets, the two-strike price debounce, the listing the grid starts from |
| `Decay`, `NetPosition`, `NetLedger`, `NetReconciliation`, `NetReversal` | decayed net positions against the plain ledger, and reversal |
| `NetCheckpoint` | checkpoints racing with the shutdown save |
| `LiquidityManagement`, `LiquiditySolvency` | commitments, fees and reserve |
| `PoolImpact`, `PoolPricing`, `QuoteSolver` | impact charges, the pool they stand for, and solving a quote for its base quantity |
| `OverrideResolution` | venue overrides layered over a pair's configuration |
| `ShutdownSignal` | the shutdown flag and its waiters |

## Results that qualify what the code promises

* **Ticks finer than the written prices.** Prices are written with ten decimals. Strictly separated ladders stay
  strictly apart for every mid exactly when the tick is at least 1e-10 (`RungsApartExactly`), and visits whose
  operations all succeed never cross an uncrossed market with separated ladders exactly for those ticks
  (`VisitsNeverCrossExactly`); for any finer tick `FineTickCrosses` constructs a first visit that does.
* **Crossing after a refused cancel.** When a cancel fails, the new orders of the other side may rest across the old
  one: an offer at 100 whose cancel is refused stays below the bid of 198 placed after the price doubled
  (`RefusedCancelCrosses`). Over any run orders rest across each other only while one of them has its failed cancel
  remembered or the next plan is a forced one (`CrossedOnlyWhileRemembered`), and one clean visit uncrosses them
  (`CleanVisitUncrosses`).
* **A price outage forgets failed cancels.** A teardown clears the memory and ignores each cancel that fails again, so
  a crossed book may rest with nothing remembered (`OutageForgetsCrossings`). What mends it is the resume: it forces
  the next plan, which keeps no side on which anything rests.
* **Non-positive thresholds.** A visit's own plan leaves nothing to do for the next visit exactly when the price
  threshold is positive or no side is fundable (`VisitReachesFixpoint`): with a threshold of zero or less an
  unmoved price counts as moved, and every visit replaces the fundable sides again.
* **Balances refreshed below the commitments.** A refresh keeps the books solvent exactly when the reported balance
  covers what is committed from it (`RefreshKeepsSolventExactly`). RFQ confirms in CC are excluded twice, by the
  reported total and by the standing commitment (`crates/cloud-agent/src/rfq_v2.rs:898-900`): with 60 of 100 CC
  committed, a refresh to the 40 left breaks it (`RefreshBelowCommitments`).
* **Reservations before tracking.** An order newly tracked is on the books exactly when nothing is reserved on it
  already (`NewOrderBookedExactly`). With every proposal verified first that always holds (`VerifyingIsHonest`). The
  no-reject mode (`crates/agent-logic/src/settlement.rs:1077-1090`) records proposals unverified; a reservation then
  made before its order is tracked drives pending below zero when it settles, where the clamp catches it
  (`EarlyReservationClamps`).
* **A payload signed again while queued.** Nonces are milliseconds, so a submit that fails at once followed by an
  equal order may share its payload. A listing can then adopt the second order as the first's while its reply is on
  its way, and tracking the reply overwrites it with what is reserved on it (`EqualPayloadsOverwrite`).
* **Commits without a fee.** RFQ V2 confirms commit with a zero fee. While CC has no room for fees (its free balance
  is below reserve and fees), `check_commit` refuses such a commit although every availability it advertises covers
  it: with a positive reserve and no CC balance, 1 USDC of 1000 is refused (`OverdrawnRoomMisleads`). The check
  passes exactly when the availabilities cover the commit and that room is not negative (`VerdictExact`), so in one
  state the two agree for all commits exactly when it is not negative (`VerdictsAgreeWithRoom`). A positive fee
  implies the room, and over runs whose refreshed balances cover the commitments a standing commitment does (`AgreesWhileCommitted`).
* **CC as an alias.** `check_commit` takes fees from the literal CC entry but resolves the committed token, while
  `available` resolves both names. Over all states with room for fees the two agree for every commit exactly when CC
  itself is not an alias of another token (`VerdictsAgreeExactly`); solvency does not depend on it (`AlwaysSolvent`).
  The one production caller of `register_alias` (`crates/cloud-agent/src/lib.rs:648-658`) never aliases CC, so the
  failing input is reachable only through the public method.
* **Two clock readings in one confirm.** `check_and_record` stamps the pending entry and `apply_delta_locked` stamps
  the aggregate with separate readings. A release restores the aggregate exactly when both readings are equal
  (`ReleaseExactForOneClockReading`); otherwise each released quote may leave up to `|delta| * (1 - decay)` over the
  time between them, which is the drift in `AggregatesTrackLedger`.
* **Failed calls on the grid.** When a cancel and the place after it both fail, the side's count is on target and its
  anchor fresh. Only the memory of failed cancels lets a later visit mend it (`ManyFailuresHeal`); without it the stale
  order would stay (`ForgettingKeepsStaleOrders`).
* **A failed final save.** Once the state is marked final no checkpoint lands any more, so if the save's own write
  fails the file keeps what it held at the mark (`MarkedFileChangesOnlyBySave`).

## Assumptions

* `Decimal` is an exact real within the type's bounds; sums and differences outside them saturate or fail as the
  source's operations do. Floating-point values are exact reals.
* No entry has a negative quantity, and nothing is reserved on an order before it is tracked. Order id 0 is exempt
  from capacity, as in the code.
* Clock readings under a lock are in order; a confirm's first reading, taken before the lock, may come earlier.
* An order id is tracked once. `TrackingNeverOverwrites` derives this for placed orders, from: no payload is signed
  while a failed submit with it is still queued, nor noted as failed while it is in flight again; listings are
  truthful; and an order of ours is imported only after a lookup found it in its market.
* Fewer placements of one market are in flight at a time than its counter holds, 2^64 - 1.
* A call on the grid whose reply is lost takes effect, if at all, before the market's next listing.
* While the price is known, funding is known for both sides of a market or for neither, as `grid_funding` computes it.
* A success reply carries the id the server booked, a definite refusal means the order was not booked, and a
  placement runs to its end once signed.
* For solvency: amounts and reserve are not negative, and refreshed balances cover what is committed from them.
  `AlwaysWellFormed` needs only the amounts.

## Model

| member | source | states |
|---|---|---|
| TrackerAccounting.CapacityConserved | crates/agent-logic/src/order_tracker.rs:476-567 | in every run each non-zero order's pending is its value when first tracked plus its reserved entries, its settled grew by exactly what settled, and their sum never exceeds the quantity or its value when first tracked |
| TrackerAccounting.NewOrderBookedExactly | crates/agent-logic/src/order_tracker.rs:273-301 | an order newly tracked satisfies the conservation if and only if nothing is reserved on it already |
| TrackerAccounting.EarlyReservationClamps | crates/agent-logic/src/settlement.rs:1077-1090 | a reservation recorded unverified before its order is tracked makes the zero clamp fire |
| TrackerAccounting.AccountingIsExact | crates/agent-logic/src/order_tracker.rs:498-567 | in every reachable state, for an entry of a tracked order, a reservation succeeds exactly when the entry is unreserved and its quantity still fits, adds exactly that and only once; settle and fail move exactly the reserved quantity, so no clamp or saturation fires |
| TrackerAccounting.AcceptedFitsCapacity | crates/agent-logic/src/order_tracker.rs:333-406 | in every reachable state a proposal for a tracked order, our bid when we buy and our offer when we sell, is accepted if and only if our key signed that order after the start and what first stood on it, what settled since, the reservations and the request fit the quantity |
| TrackerAccounting.ReserveBalances | crates/agent-logic/src/order_tracker.rs:679-700 | under the accounting invariant the checked remaining capacity admits a quantity exactly when it fits, and the saturating addition is exact |
| TrackerAccounting.CloseBalances | crates/agent-logic/src/order_tracker.rs:532-567 | under the accounting invariant the zero-clamped saturating subtraction is exact and the invariant survives settle and fail |
| TrackerAccounting.EntriesAreAsRecorded | crates/agent-logic/src/order_tracker.rs:476-567 | in every run an entry stands for the order and quantity it was first recorded with, until it settles or fails |
| OrderTracking.OrderTracker.TryReservePending | crates/agent-logic/src/order_tracker.rs:498-530 | outcome and whole new state of a reservation, with the capacity backstop for real orders only |
| OrderTracking.OrderTracker.Settle | crates/agent-logic/src/order_tracker.rs:532-550 | whole new state of a settled proposal |
| OrderTracking.OrderTracker.Fail | crates/agent-logic/src/order_tracker.rs:552-567 | whole new state of a failed proposal |
| OrderTracking.OrderTracker.NoteFailed | crates/agent-logic/src/order_tracker.rs:162-178 | stamps the market, drops aged stamps and submits and the oldest beyond the bound |
| OrderTracking.OrderTracker.AdoptFailed | crates/agent-logic/src/order_tracker.rs:180-205 | adopts the first kept submit the listed order was booked from, and says whether it did |
| OrderTracking.OrderTracker.AdoptAllListed | crates/agent-logic/src/order_tracker.rs:208-215 | adopting a listing in place equals adopting its orders one after the other, and counts them |
| OrderTracking.OrderTracker.VerifyAndImport | crates/agent-logic/src/order_tracker.rs:412-473 | verdict and new state for an order looked up on the server: imported only when signed by us, recent and not negative |
| OrderTracking.OrderTracker.Begin | crates/agent-logic/src/order_tracker.rs:142-152 | raises the market's placement count and hands out its guard |
| OrderTracking.PlacementGuard.Drop | crates/agent-logic/src/order_tracker.rs:82-92 | lowers the shared count and forgets a market at zero |
| OrderTracking.OrderTracker.CancelEverything | crates/agent-logic/src/order_tracker.rs:671-675 | every tracked order, and nothing else, becomes inactive |
| FailedSubmits.AdoptedAtMostOnce | crates/agent-logic/src/order_tracker.rs:162-205 | in every run the queue stays in time order and within 256, and adoptions of a payload plus its queued copies never exceed the times it was noted |
| FailedSubmits.AdoptionExact | crates/agent-logic/src/order_tracker.rs:180-205 | an order is adopted if and only if it is untracked and equals some submit of the last hour in nonce, market, signature and signed data; it starts with the quantity submitted and nothing settled or pending, and no other order changes |
| FailedSubmits.NotedStaysAdoptable | crates/agent-logic/src/order_tracker.rs:162-205 | over any run a noted submit stays adoptable for an hour, unless its payload was adopted meanwhile or 256 newer submits were noted |
| FailedSubmits.AdoptListedIsEach | crates/agent-logic/src/order_tracker.rs:208-215 | a listing is adopted order by order, and each order that comes to be tracked is counted |
| ImportedOrders.ImportExact | crates/agent-logic/src/order_tracker.rs:412-473 | an untracked order is imported if and only if it carries our signature, a nonce after the start and no negative amount, with the server's amounts and as not placed by the agent; it is accepted if and only if a positive request then fits |
| ImportedOrders.ForeignOrdersAreSigned | crates/agent-logic/src/order_tracker.rs:304-330 | in every run each tracked order the agent did not place carries our signature and a nonce after the start |
| PlacementProtocol.HeldAlways | crates/agent-logic/src/order_manager.rs:360-532 | in every interleaving the shared counts equal the live guards, each booked order belongs to one placement not refused, and each market's stamp is its latest failure |
| PlacementProtocol.LookedUpExactlyWhenNothingHolds | crates/agent-logic/src/order_tracker.rs:333-369 | a proposal is answered about our bid when we buy and our offer when we sell: with a server lookup if and only if that order is untracked, no placement of its market is between signing and tracking, and none failed in the last 60 s; as in flight if and only if it is untracked and one of these holds it |
| PlacementProtocol.BookedOrderNeverLookedUp | crates/agent-logic/src/order_manager.rs:491-532 | our bid when we buy, or our offer when we sell, booked from one of our submits is never looked up, from signing until tracked or until 60 s after its submit was noted as failed |
| PlacementLegality.TrackingNeverOverwrites | crates/agent-logic/src/order_manager.rs:406-419 | in every interleaving with lookups, imports and adoptions, the order a success reply names is still untracked when it is tracked |
| PlacementLegality.InterleavingsAreLegal | crates/agent-logic/src/order_manager.rs:360-532 | every interleaving takes the tracker through a legal history of its operations |
| PlacementLegality.CapacityConservedInterleaved | crates/agent-logic/src/order_tracker.rs:476-567 | so the conservation of each order's capacity holds in every interleaving |
| PlacementLegality.VerifyingIsHonest | crates/agent-logic/src/settlement.rs:1195-1280 | when settlement records entries only for tracked orders and RFQs, nothing is ever reserved before its order is tracked |
| PlacementLegality.EqualPayloadsOverwrite | crates/agent-logic/src/order_manager.rs:387-402 | with a payload signed again while its failed submit is queued, tracking a reply overwrites a tracked order and the quantity reserved on it |
| GridPricing.RungsApartExactly | crates/agent-logic/src/order_manager.rs:1363-1367 | for every mid, a bid delta below an offer delta is placed at a strictly lower written price, if and only if the tick is at least the last written decimal |
| GridPricing.FineTickCollides | crates/agent-logic/src/order_manager.rs:1363-1367 | for every finer tick some mid and ladder have bid and offer written at or across each other |
| GridPricing.RungNearExact | crates/agent-logic/src/order_manager.rs:1363-1367 | a bid rung is placed at or below its exact price and an offer rung at or above it, less than one tick away and on it at a whole number of ticks, up to half the last written decimal |
| GridPricing.UncrossExactly | crates/agent-logic/src/order_manager.rs:1424-1451 | the kept side of a one-sided refresh stays kept if and only if no new rung reaches an order on it; else it is replaced when fundable and withdrawn otherwise, and any other plan stays as it is |
| GridPricing.Best | crates/agent-logic/src/order_manager.rs:1454-1468 | highest bid or lowest offer of a list of prices, none only for an empty list |
| GridOps.Interleave | crates/agent-logic/src/order_manager.rs:1396-1419 | draining both queues rung by rung equals the paired sequence followed by the leftovers |
| GridOps.PlanOps | crates/agent-logic/src/order_manager.rs:1371-1420 | the operations of a refresh are the withdrawals followed by the paired refresh of the rungs sorted by distance |
| GridExecution.CancelsExactlyUnkeptSides | crates/agent-logic/src/order_manager.rs:1371-1420 | given distinct ids, exactly the resting orders of sides not kept are cancelled, each once |
| GridExecution.PlacesExactlyTheRungs | crates/agent-logic/src/order_manager.rs:1378-1411 | what is placed is exactly the rungs of the replaced sides, tightest first |
| GridLadders.PlacesTheLadders | crates/agent-logic/src/order_manager.rs:1371-1420 | exactly one order is placed for each level of the replaced ladders, at that level's price and quantity, levels nearer to the mid first |
| GridLadders.CancelsAreTheQueue | crates/agent-logic/src/order_manager.rs:1371-1420 | the cancels of a side not kept are its resting orders in queue order; a kept side has none |
| GridLadders.NearestCancelledFirst | crates/agent-logic/src/order_manager.rs:1506-1517 | of two resting orders of a side the one nearer to the mid is not cancelled after the other |
| GridExecution.WithdrawalsComeFirst | crates/agent-logic/src/order_manager.rs:1386-1395 | whatever is cancelled after some order was placed rests on a replaced side, so withdrawn sides go first |
| GridBook.CutShortWithinBounds | crates/agent-logic/src/order_manager.rs:770-800 | after any prefix of successful operations a side holds at most the larger and at least the smaller of old count and target, one less only on a replaced side with as many new rungs; in full, exactly its target |
| GridBook.ExecCounts | crates/agent-logic/src/order_manager.rs:770-800 | executing any operations that cancel resting orders once changes a side's count by its places less its cancels |
| GridVisit.VisitReachesFixpoint | crates/agent-logic/src/order_manager.rs:915-1035 | after a visit whose operations succeed, with inputs unchanged, the next visit keeps both sides and changes nothing, for every book, funding and ladder, if and only if the threshold is positive or no side is fundable |
| GridVisit.PlansExactly | crates/agent-logic/src/order_manager.rs:1308-1343 | a funded side with rungs is kept if and only if nothing forces it, the price is strictly within the threshold above and below its anchor, its count is its rungs', no order is part-filled and the offers' shape is as placed; else it is replaced, and any other side of known funding loses what rests on it |
| GridVisit.AnchorsAfter | crates/agent-logic/src/order_manager.rs:1345-1360 | a replaced side is anchored at the price, a kept side with orders keeps its anchor or takes the price if it has none, and any other anchor stays |
| GridCrossing.VisitsNeverCrossExactly | crates/agent-logic/src/order_manager.rs:1424-1451 | from every uncrossed book and separated ladders, every bid left resting by a visit whose operations all succeed is strictly below every offer, for any mid and fundings, if and only if the tick is no finer than the written prices |
| GridCrossing.FineTickCrosses | crates/agent-logic/src/order_manager.rs:1363-1367 | for every finer tick some first visit leaves a crossed book |
| GridVisit.VisitKeepsSound | crates/agent-logic/src/order_manager.rs:740-800 | a visit leaves distinct ids below the next new one |
| GridManager.GridMarket.Execute | crates/agent-logic/src/order_manager.rs:740-818 | runs operations until shutdown, each succeeding, refused, or lost after the server carried it out; the book, the failed cancels and the offers placed are those of the outcomes |
| GridManager.GridMarket.RetryFailedCancels | crates/agent-logic/src/order_manager.rs:1038-1070 | forgets failed cancels no longer listed, retries the others in any order, and returns the listing without those cancelled |
| GridManager.GridMarket.Visit | crates/agent-logic/src/order_manager.rs:989-1035 | retries, plans, uncrosses, executes and stamps a market: its whole new state for any outcomes |
| GridManager.FailuresAreRemembered | crates/agent-logic/src/order_manager.rs:1028-1031 | whatever fails, every order left on a replaced side is an unfilled new rung or has its failed cancel remembered, every order left on a withdrawn side has it remembered, and a kept side holds only what it held |
| GridManager.RetryExactly | crates/agent-logic/src/order_manager.rs:1038-1070 | a retry concerns exactly the remembered orders still listed: the plan leaves out those whose cancel succeeded, and those alone are forgotten |
| GridManager.RememberedExactly | crates/agent-logic/src/order_manager.rs:1028-1070 | after a visit exactly those orders are remembered whose retry did not succeed while listed, or whose cancel now did not succeed |
| GridManager.ShapeIsAsPlaced | crates/agent-logic/src/order_manager.rs:740-818 | the ladder recorded as placed is this visit's if placing some offer succeeded, else the one recorded before |
| GridRecovery.ManyFailuresHeal | crates/agent-logic/src/order_manager.rs:1038-1070 | once a visit replaced a side, whatever fails then and on any number of visits after, one visit whose calls succeed leaves exactly the rungs' number of orders there, each an unfilled new rung, and nothing to remember; with a positive threshold the next visit keeps both sides |
| GridRecovery.StaleOrdersAreRemembered | crates/agent-logic/src/order_manager.rs:1028-1070 | over any run of visits with changing inputs, failing calls, trades and price outages, every order older than the last replacement or withdrawal of its side has its failed cancel remembered, or the next plan is a forced one |
| GridRecovery.CrossedOnlyWhileRemembered | crates/agent-logic/src/order_manager.rs:1424-1451 | over any such run from an uncrossed market, with separated ladders and ticks no finer than the written prices, a bid and an offer rest across each other only while one of them has its failed cancel remembered or the next plan is a forced one |
| GridRecovery.CleanVisitUncrosses | crates/agent-logic/src/order_manager.rs:1038-1070 | one visit whose calls succeed then leaves the market uncrossed |
| GridRecovery.CleanVisitMends | crates/agent-logic/src/order_manager.rs:989-1035 | after any such run one visit whose calls succeed leaves each fundable side with its rungs' number of orders, none part-filled and none older than its last replacement or withdrawal, any other side empty, and nothing to remember; with a positive threshold the next visit keeps both sides |
| GridRecovery.CleanVisitQuotesNearPrice | crates/agent-logic/src/order_manager.rs:989-1035 | after any such run a visit whose calls succeed leaves every order the run placed on a fundable side at a rung of its own ladder, or of an earlier visit's whose price is within the threshold of the current one |
| GridRecovery.OutageForgetsCrossings | crates/agent-logic/src/order_manager.rs:311-328 | a teardown whose cancels fail leaves a crossed book with nothing remembered, until the resume forces a visit |
| GridRecovery.RefusedCancelCrosses | crates/agent-logic/src/order_manager.rs:776-785 | a single refused cancel leaves a new bid above an old offer |
| GridManager.ForgettingKeepsStaleOrders | crates/agent-logic/src/order_manager.rs:1038-1070 | without the memory of failed cancels a stale order stays although every later call succeeds |
| GridManager.SucceededVisit | crates/agent-logic/src/order_manager.rs:915-1035 | with nothing failing, a visit is the plain visit of the fixpoint and crossing results, to the book without the retried orders |
| GridManager.AttemptKeepsSound | crates/agent-logic/src/order_manager.rs:740-818 | whatever fails, ids stay distinct and below the next new one |
| GridCycle.Rotation.UpdateCycle | crates/agent-logic/src/order_manager.rs:885-912 | which markets a cycle visits, where the next resumes, and visited plus deferred is the total |
| GridCycle.ResumesWhereCut | crates/agent-logic/src/order_manager.rs:885-912 | a cycle cut by its deadline is resumed at the first market it deferred; one that finished or saw the shutdown starts over; it is cut only by the shutdown or, after its first market, by the deadline |
| GridCycle.EveryMarketVisited | crates/agent-logic/src/order_manager.rs:885-912 | without shutdown and with an adversarial deadline every cycle visits at least one market and any N consecutive cycles visit every one of N markets |
| GridCycle.FewerCyclesMiss | crates/agent-logic/src/order_manager.rs:1490-1492 | one cycle fewer does not suffice |
| PriceDebounce.PricelessExactly | crates/agent-logic/src/order_manager.rs:829-881 | over any trace a market is without quotes if and only if some second consecutive failure was not followed by a second consecutive success |
| PriceDebounce.TeardownClearsAnchors | crates/agent-logic/src/order_manager.rs:311-328 | a torn-down market has no anchor |
| PriceDebounce.AnchorsOutliveOneFailure | crates/agent-logic/src/order_manager.rs:829-852 | over any trace the anchors are those of the latest plan, unless the market was torn down since |
| PriceDebounce.ForcedExactlyAfterResume | crates/agent-logic/src/order_manager.rs:1136-1173 | a plan is forced if and only if the market resumed since the plan before it |
| PriceDebounce.PriceWatch.FetchGridPrice | crates/agent-logic/src/order_manager.rs:829-852 | one fetch moves its own market's streaks, priceless mark and anchors, and no other's |
| PriceDebounce.PriceWatch.AcceptPrice | crates/agent-logic/src/order_manager.rs:855-881 | a valid price moves its own market's streaks and is let through unless the market awaits its second success |
| OrderListing.DedupOrders | crates/agent-logic/src/client.rs:557-564 | lists every id once, in order of first appearance, with its last copy; the distinct ids the grid relies on |
| OrderListing.MergeStatusPages | crates/agent-logic/src/client.rs:552-555 | the same of the pages of all statuses together |
| OrderListing.SameListing | crates/agent-logic/src/client.rs:557-564 | those promises fix the listing completely |
| NetPosition.NetPositionTracker.CheckAndRecord | crates/agent-logic/src/net_position.rs:388-420 | a confirm is accepted on the party's current net and counted unless its delta is zero, its token empty or its quote already pending; the pending entry and the aggregates carry their own clock readings |
| NetPosition.NetPositionTracker.Release | crates/agent-logic/src/net_position.rs:434-441 | reverses a pending delta as it now stands after decay |
| NetPosition.NetPositionTracker.ExpireStalePending | crates/agent-logic/src/net_position.rs:445-462 | releases exactly the stale pendings, in some order, each at its own clock reading |
| NetPosition.NetPositionTracker.SweepDecayed | crates/agent-logic/src/net_position.rs:356-372 | drops exactly the negligible aggregates and counts them |
| NetLedger.ConfirmExactly | crates/agent-logic/src/net_position.rs:388-420 | a confirm with a delta of either sign, a token and no pending entry yet becomes pending and moves every later read of its party and of the desk by its decayed delta, up to epsilon; any other confirm changes nothing |
| NetLedger.ReadsFade | crates/agent-logic/src/net_position.rs:246-258 | an aggregate reads as its value at its own stamp and falls to the rate's fraction with every millisecond after it |
| NetLedger.SweepExactly | crates/agent-logic/src/net_position.rs:356-372 | a sweep drops exactly the aggregates reading at most epsilon and leaves all else alone |
| NetLedger.ExpiryLeavesTheYoung | crates/agent-logic/src/net_position.rs:445-462 | an expiry leaves exactly the pending quotes no older than the limit, as they were |
| NetLedger.AggregatesTrackLedger | crates/agent-logic/src/net_position.rs:274-352 | in every run and at every later moment each aggregate reads as the sum of the counted, not reversed deltas, each decayed since it was applied, up to epsilon per eviction of that aggregate and the lag between the two stamps of each released quote |
| NetLedger.OneReadingNoDrift | crates/agent-logic/src/net_position.rs:388-420 | when each confirm's two readings coincide, releases never miss |
| NetLedger.RebasedReads | crates/agent-logic/src/net_position.rs:274-306 | rebasing an aggregate adds exactly the decayed amount to every later read, up to epsilon when it is dropped |
| NetReconciliation.NetReadsAsLedger | crates/agent-logic/src/net_position.rs:246-272 | every net read is within epsilon times the evictions, plus the drift of releases, of the ledger; equal to it without an epsilon and with one reading per confirm |
| NetReconciliation.DeskIsSumOfParties | crates/agent-logic/src/net_position.rs:274-306 | the desk's net is the sum of all parties' nets and the party-less flow, up to those evictions and that drift |
| NetReversal.ReleaseExactForOneClockReading | crates/agent-logic/src/net_position.rs:309-352 | with any operations on other quotes in between, a confirm and its release leave every later read as on books where it was never confirmed, if and only if the aggregate does not concern it or pending entry and aggregate carry one clock reading |
| NetCheckpoint.FinalSaveWins | crates/agent-logic/src/net_position.rs:516-577 | once the save's write succeeded the file equals its snapshot for good, whatever checkpoints interleave |
| NetCheckpoint.MarkedFileChangesOnlyBySave | crates/agent-logic/src/net_position.rs:530-547 | from the final mark on, the file changes only when a save lands |
| NetCheckpoint.FileAlwaysOccurred | crates/agent-logic/src/net_position.rs:504-512 | the file is always the one found at start or a whole snapshot of a state that occurred, whatever writes fail |
| NetCheckpoint.NoUpdateForgotten | crates/agent-logic/src/net_position.rs:516-545 | until the final mark, a clean tracker's state is the loaded one or has its snapshot on the way to the file or landed there |
| NetCheckpoint.WritesTheLiveState | crates/agent-logic/src/net_position.rs:504-577 | a save, or a due checkpoint of changes not yet final, begun while the lock is free puts the live state into the file by its own steps; if its write or rename fails the file stays and only the checkpoint's state is to be written again |
| LiquidityManagement.LiquidityManager.TryCommit | crates/agent-logic/src/liquidity.rs:462-495 | verdict and whole new state of a commit attempt |
| LiquidityManagement.LiquidityManager.Release | crates/agent-logic/src/liquidity.rs:498-510 | removes the id from the fees and from every token |
| LiquidityManagement.LiquidityManager.RetainCommitments | crates/agent-logic/src/liquidity.rs:525-563 | keeps exactly live and RFQ ids and returns the number of distinct ids dropped |
| LiquidityManagement.LiquidityManager.Total | crates/agent-logic/src/liquidity.rs:62-74 | the saturating sum over non-negative amounts is the exact sum capped at the maximum, in any iteration order |
| LiquiditySolvency.AlwaysSolvent | crates/agent-logic/src/liquidity.rs:379-495 | in every run whose refreshed balances cover what is committed from them, each token's allocations fit its balance, and once anything is committed reserve, fees and CC allocations fit the CC balance |
| LiquiditySolvency.RefreshKeepsSolventExactly | crates/agent-logic/src/liquidity.rs:254-289 | a refresh keeps that if and only if the reported balance covers what is committed from it |
| LiquiditySolvency.RefreshBelowCommitments | crates/agent-logic/src/liquidity.rs:254-262 | a refresh of CC to what a standing commitment left breaks it |
| LiquiditySolvency.AlwaysWellFormed | crates/agent-logic/src/liquidity.rs:254-345 | over any run with non-negative amounts and fees, balances free to fall, what the operations require of the state holds |
| LiquiditySolvency.VerdictExact | crates/agent-logic/src/liquidity.rs:379-426 | while CC is no alias, a commit with non-negative amount and fee passes if and only if the advertised availabilities cover it and CC has room for fees; with a positive fee the availabilities alone decide |
| LiquiditySolvency.VerdictsAgreeWithRoom | crates/agent-logic/src/liquidity.rs:379-426 | in one state check and availabilities agree for every commit if and only if CC has room for fees |
| LiquiditySolvency.OverdrawnRoomMisleads | crates/agent-logic/src/liquidity.rs:412-426 | with CC below its reserve a commit without a fee is refused although every availability covers it |
| LiquiditySolvency.AgreesWhileCommitted | crates/agent-logic/src/liquidity.rs:379-495 | over such runs they agree in every state holding a commitment |
| LiquiditySolvency.VerdictsAgreeExactly | crates/agent-logic/src/liquidity.rs:379-426 | over all states with room for fees they agree, for every token, amount and fee, if and only if CC is not an alias |
| LiquiditySolvency.CommitDebitsExactly | crates/agent-logic/src/liquidity.rs:462-495 | a fresh commit lowers every availability by exactly what it takes there |
| LiquiditySolvency.ReleaseCreditsExactly | crates/agent-logic/src/liquidity.rs:498-510 | releasing it restores every availability |
| LiquiditySolvency.RetainReconciles | crates/agent-logic/src/liquidity.rs:525-563 | reconciling keeps exactly live and RFQ ids with their amounts, is idempotent and lowers no availability |
| LiquiditySolvency.AvailableExactly | crates/agent-logic/src/liquidity.rs:588-597 | in a solvent state the advertised availability of a token, by any of its names, is its balance less its commitments; for CC also less reserve and fees, and never below zero |
| PoolImpact.SplitPaysCostGrowth | crates/agent-logic/src/pool_impact.rs:54-101 | on both sides, across free zone and pool-fraction clamp, any split is charged at most the multiplier times the cost growth, and exactly that if and only if no part hits the cap |
| PoolImpact.SplitsPayTheSame | crates/agent-logic/src/pool_impact.rs:94-101 | two uncapped splits of one total pay the same |
| PoolImpact.CostGrows | crates/agent-logic/src/pool_impact.rs:85-96 | the cost function never falls, so the inner clamp at zero never fires |
| PoolImpact.FreeExactlyInsideZone | crates/agent-logic/src/pool_impact.rs:54-101 | where charging is on, a trade pays nothing if and only if it ends inside the free zone on its side, as closing legs do |
| PoolImpact.CostStrictlyGrows | crates/agent-logic/src/pool_impact.rs:85-96 | a farther position costs strictly more, also past the pool-fraction clamp |
| PoolPricing.ChargeIsThePools | crates/agent-logic/src/pool_impact.rs:54-101 | below the share clamp a trade from any net is charged, at the spot price, the multiplier times what a constant-product pool would add between the two positions past the free zone, or the cap where that is less |
| PoolPricing.MarkupIsThePools | crates/agent-logic/src/pool_impact.rs:85-93 | moving a quantity within the largest share through the pool from rest exchanges it at the spot price raised by the markup for a buyer and lowered by it for a seller |
| PoolPricing.ChargeStopsGrowing | crates/agent-logic/src/pool_impact.rs:85-101 | past the largest share, from rest, the charge per unit stays what it is there |
| QuoteSolver.SolveBaseForQuote | crates/agent-logic/src/pool_impact.rs:126-161 | refuses exactly the unusable inputs, and otherwise answers the midpoint of a bracket around the quote no wider than the tolerance or the 64-fold halving of the first |
| QuoteSolver.AnswerNearRoot | crates/agent-logic/src/pool_impact.rs:126-161 | quantities below the answer by more than half that width pay less than the quote and those above it pay more, so any root is that close and there is at most one |
| QuoteSolver.ImpactPriceIsSolvable | crates/cloud-agent/src/rfq_handler.rs:519-537 | the buyer's price with spread and capped impact gives a strictly increasing total within the solver's bounds |
| QuoteSolver.SolveAtImpact | crates/cloud-agent/src/rfq_handler.rs:516-538 | for a buyer's quote the answer is where that price crosses the quote, within a tolerance fixed by the quote and the price without impact |
| OverrideResolution.ResolveRfqConfig | crates/agent-logic/src/config.rs:1910-1935 | the loop over the stably sorted matches computes the layered configuration, the pair's own without a venue |
| OverrideResolution.EveryFieldResolves | crates/agent-logic/src/config.rs:1800-1935 | each overlay field's effective value comes from the matching entry maximal by (specificity, file position) among those setting it, else from the pair; everything else stays the pair's |
| ShutdownSignal.NoLostWakeup | crates/agent-logic/src/shutdown.rs:40-87 | no reachable state has a completed signal and a waiter blocked with no wakeup on its way |
| ShutdownSignal.OrderMatters | crates/agent-logic/src/shutdown.rs:57-71 | that holds of every run if and only if waiters register before they read the flag |
| ShutdownSignal.ReturnsByItsOwnSteps | crates/agent-logic/src/shutdown.rs:64-87 | after a completed signal every call still out returns true by its own steps |
| ShutdownSignal.NoFalseElapse | crates/agent-logic/src/shutdown.rs:73-87 | a call that outlives a completed signal never reports that its time elapsed |

## Left out

- Floating point: rounding, infinities and NaN; prices, nets and charges are reals, so `f64` guards against non-finite values have no counterpart.
- Decimal scale: the 28-digit scale and its rounding; only the bounds, saturation and checked overflow are kept.
- Text: quantities arrive parsed or unparsable; prices the server lists are taken to parse.
- Signatures: the key check is an arbitrary predicate of signed data and signature, and an order's type and price, which verification does not read, are absent.
- PlacementProtocol.BookedOrderNeverLookedUp: says nothing of a placement whose task is aborted between signing and noting.
- Persistence of the order tracker (`export_state`, `import_state`) and reloading net positions (`load_or_new`): a reload deliberately skips absent aggregates, so ledger equality does not carry across it.
- Checkpoints landing in snapshot order before the final save: the code does not promise it.
- Crossing while a two-sided refresh is half done: only the final book is guarded.
- A market without rungs: its orders are only ever withdrawn (`withdraw_unquoted`), and its ladders are fixed while the manager lives.
- `can_park`, `grid_funding`, the price fetch and the cycle report around a visit: price and funding are inputs of a visit.
- GridVisit.VisitReachesFixpoint: speaks of a visit whose operations succeed, as the property does; failures are the subject of `GridManager`.
- GridManager.GridMarket.Visit: shutdown does not interrupt it; the shutdown path withdraws the whole grid, and cutting off the operations themselves is `Execute` and `CutShortWithinBounds`.
- GridManager.GridMarket.Execute: a place whose order reference cannot be made counts as refused.
- PriceDebounce.PriceWatch.FetchGridPrice: cancelling the orders of a torn-down market and clearing its last-resting and depth marks are not part of the price state; the failed cancels it forgets are the subject of `GridRecovery`.
- `shape_offer_levels`: the shaped ladder is an input of a visit; only the trigger comparing it with the last placed one is modelled.
- Flow averages, the depletion coefficient, staleness stamps and the CC rate of the liquidity manager: samples of the clock with no invariant of their own.
- LiquidityManagement.LiquidityManager.TryCommit: required to start from non-negative balances and amounts; a negative commit amount is not modelled.
- Clocks are natural numbers of milliseconds: the saturation of 64-bit timestamps is not modelled.
- OverrideResolution.ResolveRfqConfig: borrowing the pair's configuration and cloning it are one; the denomination ladder and impact blocks of a configuration, which no overlay touches, are not carried.
- QuoteSolver.SolveAtImpact: buyers only; for a seller the total need not grow with the quantity at every multiplier.
- QuoteSolver.AnswerNearRoot: existence of a root needs the completeness of the reals, which first-order reals lack; where the quote is crossed is stated instead.
- ShutdownSignal.NoLostWakeup: the runtime's scheduler and memory ordering are not modelled; each read or write of the flag is one atomic step.
- `collect_pages`, gRPC, TLS, timeouts, logging, configuration parsing, forecasting and the event loop: input and output around the modelled state.
