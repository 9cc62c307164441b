# Rent-auto backend: a verified model

The backend keeps rental listings on two market channels (UU and ECO): it reconciles a desired shelf with the
observed one, prices and reprices listings, learns a price factor from orders, books income, and logs in to Steam.
This project models the state machines and arithmetic of that logic in Dafny and proves what they promise.

`dafny verify dfyconfig.toml` checks everything.

## How the model is built

* A SQL table is a map, and each statement a map update with exactly its WHERE clause; a transaction or a
  mutex-held section is one atomic step. Loops and objects of the source are Dafny methods and classes, each proved
  against a specification function; the theorems are about those functions and about runs over them.
* What an operation promises is stated in words of its own, not through the helpers that compute it: `ReconMeaning`,
  `PricingMeaning` and the lemmas named `…InWords`, `…Iff` or `…Nearest` give each decision an exact condition over the
  stored columns, the inventory, the market and the clock.
* Time is an integer clock. Remote platforms, pricing callbacks, order feeds, write failures and clock readings are
  arbitrary inputs, so the theorems hold for every behaviour of the outside world.
* Bit operations of the protobuf code are written as arithmetic: a shift is a multiplication modulo 2^32, and an `or` into
  clear bits is a sum.
* Stored money is integer cents. Prices inside the pricing engine are reals, with NaN and the infinities kept as values
  where the source guards against them.

| file | what it covers |
|---|---|
| `Domain`, `Listings` | shared types; the `listings` table and its statements |
| `Recon`, `ReconSafety`, `ReconMeaning`, `ReconFixpoint`, `ReconCycles`, `ReconGrace` | the reconciliation plan, its safety, the plan in words, its fixed point and the cycles it speaks of, its grace clock over every run |
| `ListingStore` | the listing store object and the plan executor |
| `ShelfSnapshot` | shelf snapshots racing with local writes |
| `Money`, `Pricing`, `PricingMeaning`, `Reprice`, `RepriceRun`, `Quotes` | rounding, the price decision, the same in words, repeated repricing, the repricing pass with its cooldowns, the market baseline |
| `Controller`, `FactorFold` | the factor controller and the exactly-once folding of order events |
| `LeaseOrders` | the `lease_orders` upsert, of which the income ledger and the factor fold each see a part |
| `Income` | the income ledger and its `daily_stats` projection |
| `Jobs`, `Session`, `Strategy` | the job scheduler, session revocation, strategy layers and checked edits |
| `Proto` | the protobuf wire format and the Steam login messages |

## Where the code falls short of its promise

Each of these is a theorem with its exact boundary or a counterexample, except the missing long price, where a document and the
code disagree and the model follows the code.

* **Reconciliation can repeat a publish** when the platform echoes the id of an old row that belongs to another asset:
  the upsert of `RecordPublishedListing` refreshes state and terms but keeps the old asset and hash
  (`ReconFixpoint.ReusedIdIsNotAFixedPoint`; the exact condition is `ReconFixpoint.ReplanIsEmptyIff`).
* **A TopN of 0 or less loses every quote**: the query limit becomes 0 or negative, while `Baseline` itself would fall
  back to 15 (`Quotes.LimitLosesNothing`).
* **A rent at or above 1e15 collapses to 0** in `Round2`, and only then is an accepted rent not the best one
  (`Pricing.AcceptedRentIsBest`).
* **A listing at a rent of 0 whose target is 0, and granted, is repriced for ever**, since 0 reads as "no current rent" and
  noise never applies to it. A positive rent gets there only under a change cap of 100 %
  (`Reprice.RepricingStopsUnlessItLoops`, `RepriceRun.PassesStopIff`, `Reprice.PennyMarketNeverSettles`).
* **An ECO deposit at or above 1e15 collapses**, and so does its cap (`Pricing.EcoDepositIsTheOneSent`).
* **A template edit can be accepted next to an invalid template** stored before the checks existed
  (`Strategy.AcceptedTemplateEditIsValidIff`, `Strategy.LegacyTemplateSurvivesTemplateEdit`).
* **A stale step of at most 0.00005 never lowers a factor** (`Controller.SmallStepsAreRoundedAway`), and **a listing at the floor stays there**
  when neutral, capped by FMax, is within a unit of FMin (`Controller.ResetLeavesFloorIff`).
* **An unknown lease term can still signal a success**, although the repository's own pricing document wants no positive
  signal from one: the query substitutes its own time for a missing date, and without a whole day left any order but a
  long one falls back to the listing's maximum days (`FactorFold.HalfKnownTerm`, `FactorFold.UnknownTermsSignal`).
* **A missing long price** is `short × 0.98` in that document; the code, and this model, use `max(short − 0.01, 0.01)`.
* **Field numbers of 2^29 and above are silently truncated** by the protobuf tag (`Proto.RoundTripIff`).

## Model

| member | source | states |
|---|---|---|
| `Recon.Plan` | backend/internal/recon/recon.go:134-276 | the planning loops, with their dedup maps, counters and route map, return exactly the declarative plan and the observation of every listing |
| `Recon.CollectDesired` | backend/internal/recon/recon.go:147-171 | the first loop leaves, for every (hash, channel), the distinct unleased assets wanted there, and the last route per hash |
| `Recon.Scan` | backend/internal/recon/recon.go:196-210 | one scan decides whether the asset is listed in any state and counts the non-leased rows of the slot |
| `Recon.PublishPass` | backend/internal/recon/recon.go:183-228 | the publish loop with its planned-map equals the item-by-item publish specification |
| `Recon.DelistPass` | backend/internal/recon/recon.go:230-275 | the delist loop with its kept-counters equals: remove what is misplaced, or is beyond the budget of earlier rows and has served its grace |
| `ReconSafety.PlanIsSafe` | backend/internal/recon/recon.go:117-276 | for every snapshot and pricing callback: no leased row delisted, no leased, listed or repeated asset published, live + published within max(live, wanted), no slot both published to and delisted from |
| `ReconSafety.PlanIsJustified` | backend/internal/recon/recon.go:186-274 | every publish sends a routable item at its own price to a channel that its hash's route serves under the current health, and every delist's reason (orphan, failover, not routed, surplus) is the case |
| `ReconSafety.PublishesSafe` | backend/internal/recon/recon.go:186-228 | the same safety for every prefix of the publish loop |
| `ReconSafety.PublishesExhaust` | backend/internal/recon/recon.go:186-228 | completeness: after the loop no publishable item has an open slot with a price left |
| `ReconMeaning.DelistIff` | backend/internal/recon/recon.go:230-276 | exactly which delists are planned, in the words of inventory and shelf: an orphan, or a copy behind as many others as its slot has demand for, once that reason has been on record for a grace; a listing on a channel that its route does not serve at once; never a leased one |
| `ReconMeaning.ObservedIff` | backend/internal/recon/recon.go:232-268 | every listing is observed, and what is put on record is exactly whether it is an orphan or a surplus copy |
| `ReconMeaning.OfferIff` | backend/internal/recon/recon.go:183-228 | exactly when a free, priced, unlisted copy is published where its route points: unless the demand of its slot was met, counting what is listed and not leased, by earlier copies; and then the slot stays within its demand |
| `ReconMeaning.OnlyOffersAreTaken` | backend/internal/recon/recon.go:183-228 | nothing else is published, and each publish is at its own copy's price |
| `ReconMeaning.PublishesComeFirst` | backend/internal/recon/recon.go:181-276 | all publishes of a plan come before its delists |
| `ReconMeaning.RouteOfIs` | backend/internal/recon/recon.go:152-158 | the route of a hash is that of its last free copy, and there is none exactly if no copy is free |
| `ReconFixpoint.ReplanIsEmpty` | backend/internal/recon/recon.go:480-512 | after any cycle is observed, executed and written back, replanning at the same time returns no action if echoed ids are new or the asset's own, or, by counting, if every wanted publish has a price, every asset an id, and old ids belong to rows of the same hash; grace served or not |
| `ReconFixpoint.ReplanIsEmptyIff` | backend/internal/recon/recon.go:134-276 | the exact condition on the echoed ids, read off the table before the write-backs: the next plan is empty if and only if no row lands under a hash routed elsewhere and every wanted publish has no price, is listed, lands, or finds its slot full |
| `ReconFixpoint.PricedSlotFills` | backend/internal/recon/recon.go:188-214 | the counting argument: with all prices and asset ids present, live + published reaches the wanted distinct assets of every routed slot |
| `ReconCycles.EveryStateHasACycle` | backend/internal/recon/recon.go:134-512 | the fixed point is never vacuous: from every table, inventory, health and pricing callback some cycle is executed without an error, with ids that fit, and replans to nothing |
| `ReconFixpoint.SettledForGood` | backend/internal/recon/recon.go:230-274 | if every grace was served, replanning at any later time and with any grace is empty under exactly the same condition on the echoed ids |
| `ReconFixpoint.SettledInOrderIff` | backend/internal/recon/recon.go:243-261 | with every grace served, no orphan, misplaced or surplus row is left if and only if each published row landed in a routed slot with room for it |
| `ReconFixpoint.KeptHashesLandInRoom` | backend/internal/recon/recon.go:186-228 | which is so whenever echoed ids keep the hash they were published under |
| `ReconFixpoint.WriteBacksLand` | backend/internal/store/recon.go:125-153 | a whole sequence of write-backs leaves each published row active with its decided terms, under the asset and hash it had or was given, each delisted row gone, and all others alone |
| `ReconFixpoint.SlotStaysFull` | backend/internal/recon/recon.go:231-261 | a slot with at least its budget of live rows still has it in the next snapshot, by counting the rows in front |
| `ReconFixpoint.SlotGains` | backend/internal/recon/recon.go:186-228 | a slot nothing is dropped from gains exactly the rows that land in it |
| `ReconFixpoint.SettledLive` | backend/internal/recon/recon.go:231-261 | with every grace served, a routed slot holds its rows up to the budget and what landed in it |
| `ReconFixpoint.AnyInventoryOrder` | backend/internal/recon/recon.go:147-171 | with one route per hash the desired state does not depend on the inventory's row order |
| `ReconFixpoint.ReusedIdIsNotAFixedPoint` | backend/internal/store/recon.go:125-140 | the counterexample: an echoed id of another asset's row makes the same publish planned again |
| `ReconGrace.DelistWaitsOutGrace` | backend/internal/recon/recon.go:230-274 | over every run of cycles, snapshots and local writes, an orphan delist is preceded by a completed cycle at least one grace earlier, and every cycle since saw it as an orphan; the same for a surplus copy |
| `ReconGrace.ClockIsNotRestarted` | backend/internal/store/recon.go:95-109 | over every run, the record of a row that stays active, unpublished and seen as nothing else keeps the time at which the reason was first seen |
| `ReconGrace.DelistedOnceGraceIsServed` | backend/internal/recon/recon.go:230-274 | the converse: such an orphan or surplus copy is planned for removal exactly if a grace, or a day when none is set, has gone by since it was first seen as one |
| `ReconGrace.RunKeepsInv` | backend/internal/store/recon.go:95-109 | in every reachable state each stored mismatch is backed by an unbroken chain of observations since its start |
| `Executor.ExecuteWithError` | backend/internal/recon/recon.go:384-472 | the executor loop yields the specified table, counts and platform calls in order, with risk-blocked channels, dry run, lost write-backs and cancellation, and reports no error exactly if nothing failed and it was not cancelled |
| `Executor.NthAction` | backend/internal/recon/recon.go:384-472 | what the n-th action of any run does to calls, stop, blocks, table and both counts: it is sent exactly when there is an adapter, no dry run, no block, no cooldown and no cancellation, and written back exactly when confirmed, persisted and, for a publish, echoed with an id |
| `Executor.CleanRunWritesBack` | backend/internal/recon/recon.go:384-512 | unless cancelled every action is counted, and a run that reports no error made exactly the planned calls and wrote all of them back |
| `Executor.CleanCycleReplansToNothing` | backend/internal/recon/recon.go:384-512 | a cycle whose execution reports no error is followed by an empty plan exactly if the echoed ids fit |
| `Executor.BlockedChannelIsLeftAlone` | backend/internal/recon/recon.go:384-478 | in every run, once an action of it drew a risk signal, no later action of the run calls that channel |
| `Executor.DryRunTouchesNothing` | backend/internal/recon/recon.go:384-472 | a dry run makes no call and no write |
| `ListingStores.ListingStore.ApplyShelfSnapshot` | backend/internal/store/shelf_snapshot.go:23-75 | the transaction, with its validation, ordering guard, breaker, upsert loop and missing pass, equals the atomic snapshot step |
| `ListingStores.CheckShelf` | backend/internal/store/shelf_snapshot.go:23-33 | the loop accepts exactly the responses of one channel with non-empty distinct ids, and collects their ids |
| `ListingStores.ListingStore.ObserveReconMismatches` | backend/internal/store/recon.go:95-109 | the two parallel arrays update exactly the observed rows, starting, keeping or clearing each grace clock |
| `ListingStores.ListingStore.RecordPublishedListing` | backend/internal/store/recon.go:125-140 | the row is active with the given terms and time and no mismatch; an old row keeps its asset, hash, listing and reprice times, a new one takes the given ones; no other row changes |
| `ListingStores.ListingStore.MarkListingDelisted` | backend/internal/store/recon.go:143-153 | a known row is gone, retired and synced now, without mismatch, with its identity, terms and other times kept; an unknown id and every other row are untouched |
| `ShelfSnapshot.AppliedListed` | backend/internal/store/collect.go:23-59 | each row named by an applied snapshot ends as reported, unless a later local write stands: leased or active as the response says, with its asset, terms and hash or else display name, no retirement, and the old listing and reprice times; its mismatch is kept exactly while the state stays |
| `ShelfSnapshot.AppliedUnlisted` | backend/internal/store/collect.go:75-89 | a row not named goes missing exactly when it is active, of the channel, and without a later write |
| `ShelfSnapshot.SnapshotOutcome` | backend/internal/store/shelf_snapshot.go:23-75 | exactly which responses are refused, superseded or held back by the breaker, that nothing changes then, and that an applied one records its time and counts the rows that went from active to gone |
| `ShelfSnapshot.LocalWriteWins` | backend/internal/store/shelf_snapshot.go:23-75 | after every interleaving, a snapshot observed before the latest publish, delist or reprice of a row leaves that row as it is |
| `ShelfSnapshot.RunAges` | backend/internal/store/collect.go:23-89 | over every run no row is lost and max(actual_synced_at, last_reprice_at) never decreases |
| `ShelfSnapshot.RunAppliesInOrder` | backend/internal/store/shelf_snapshot.go:15-75 | over every run the snapshots applied to a channel have strictly increasing observation times |
| `ShelfSnapshot.OlderArrivesLate` | backend/internal/store/shelf_snapshot.go:23-75 | once a newer observation was applied, an older one changes nothing |
| `ShelfSnapshot.LeasedIsNeverMissing` | backend/internal/store/collect.go:75-89 | a leased row that a snapshot omits is untouched |
| `ShelfSnapshot.EmptyShelfTakesNothingDown` | backend/internal/store/shelf_snapshot.go:47-57 | an empty response never takes a row down, and changes nothing while the channel has rows |
| `Money.HalfAwayNearest` | backend/internal/store/money.go:16-24 | no integer is nearer than the rounded one, and of two equally near ones it is the one farther from 0 |
| `Money.CentsNearest` | backend/internal/pricing/engine.go:18-26 | Round2 gives the nearest cent below 1e15 in either direction, and 0 from there on, for NaN and for the infinities |
| `Money.CentsOdd` | backend/internal/pricing/engine.go:18-26 | Round2(−v) = −Round2(v), which is what lets a reversal cancel its entry |
| `Money.CentsOfMoney` | backend/internal/store/money.go:16-24 | an amount already in cents survives a second rounding |
| `Pricing.ConflictIff` | backend/internal/pricing/engine.go:348-383 | `guardrail_conflict` is returned exactly when the inputs are usable and no whole cent meets every guardrail |
| `Pricing.IntervalIsMeets` | backend/internal/pricing/engine.go:348-383 | the quantized interval holds exactly the cents that meet min and max rent, the value ratio and the change cap within the tolerance |
| `Pricing.AcceptedRentIsBest` | backend/internal/pricing/engine.go:348-388 | an accepted rent is feasible and nearest among all feasible cents to the short baseline times the factor held within its bounds, if and only if the clamped price is below 1e15; otherwise it is 0 |
| `PricingMeaning.RefusedInputIff` | backend/internal/pricing/engine.go:335-349 | exactly which inputs are refused for a missing anchor, a missing baseline or a number that is not finite |
| `PricingMeaning.DecideIff` | backend/internal/pricing/engine.go:389-441 | exactly which priced inputs are skipped for an excessive deposit, a cooldown or noise, in that order; and the days, long price and deposit of an accepted one, for both channels |
| `Pricing.EcoDepositIsTheOneSent` | backend/internal/pricing/engine.go:389-441 | an accepted ECO decision has long ≤ rent; its deposit is the derived one to the cent, covers rent × days, stays within the rounded cap and is recomputed unchanged by the adapter, if and only if the derived deposit rounds below 1e15 and, unless it rounds to 0, the cap does not collapse |
| `Pricing.AdapterSendsTheGreatest` | backend/internal/platform/eco/adapter.go:131-181 | the adapter's derived deposit is the greatest of the deposit, the rent for the term and a positive long price for the term |
| `Pricing.DepositSurvivesAdapter` | backend/internal/platform/eco/adapter.go:131-181 | the adapter's derived deposit equals any deposit that covers the rent for the whole term |
| `Reprice.RepricingConverges` | backend/internal/pricing/engine.go:334-441 | with max_rent below 1e15 − 1 and a market that is never at its own zero rent, feeding decisions back accepts at most (initial cent distance + 1) of them over any round times, and never leaves the stretch between start and target |
| `Reprice.RepricingStopsIff` | backend/internal/pricing/engine.go:334-441 | the accepted decisions are bounded if and only if no run of rounds arrives at a rent of 0 in a market that asks for 0 |
| `Reprice.RepricingStopsUnlessItLoops` | backend/internal/pricing/engine.go:348-441 | the same as a check before the first round: repricing never stops exactly if the target is 0, granted, and the listing is at 0 or a change cap of 100 % drops it there past the noise band; the cap is below 100 % by more than the tolerance, or at least 100 % |
| `Reprice.PennyMarketNeverSettles` | backend/internal/pricing/engine.go:348-441 | the failure at a concrete market: base 0.01, factor 0.4, no minimum rent |
| `Reprice.AcceptMovesTowardsTarget` | backend/internal/pricing/engine.go:348-388 | each accepted rent lies between the current one and the target: monotone, no overshoot |
| `Reprice.TargetIsBest` | backend/internal/pricing/engine.go:348-388 | the target is the cent price nearest to the short baseline times the bounded factor among those that meet every guardrail but the change cap |
| `Reprice.AcceptDoesWork` | backend/internal/pricing/engine.go:389-441 | each accepted decision strictly lowers the remaining work, so noise is what stops it |
| `Reprice.RestIsCloseToTarget` | backend/internal/pricing/engine.go:389-441 | a noise skip means the next rent is within the noise band and is the target unless the change cap stopped short of it |
| `Reprice.ZeroRentNeverSettles` | backend/internal/pricing/engine.go:389-441 | in a market that asks for 0 and grants it, a listing at 0 is repriced n times in n rounds, for every n |
| `RepriceRun.Repricer.RepriceChannel` | backend/internal/scheduler/jobs_reprice.go:113-269 | a failed candidate query is the only error of its pass; otherwise the candidate loop yields the specified table, sublet flags, cooldowns, price actions and calls in order, and the strategy errors in front of the operation errors |
| `RepriceRun.Repricer.RunReprice` | backend/internal/scheduler/jobs_reprice.go:97-111 | channels still cooling down are left out, and a failed channel is penalized by its joined error |
| `RepriceRun.RunInWords` | backend/internal/scheduler/jobs_reprice.go:97-111 | one channel of a run: left out while its cooldown runs; a failed pass cools it down by the first kind of its joined error, in the order rate limit, block, expired key, expired login; a clean pass is not a failure |
| `RepriceRun.Repricer.Penalize` | backend/internal/scheduler/jobs_reprice.go:49-81 | no deadline ever moves earlier and no other channel changes; a risk signal is served in full from now on, and any other error leaves everything alone |
| `RepriceRun.PassesConverge` | backend/internal/scheduler/jobs_reprice.go:113-262 | through any run of passes with skips, dry runs, refusals, lost writes and cooldowns, a listing in a fixed market that does not loop at 0 is rewritten at most (initial cent distance + 1) times, always towards its target |
| `RepriceRun.PassesStopIff` | backend/internal/scheduler/jobs_reprice.go:113-262 | and the rewrites are bounded over all runs if and only if the market and the listing's terms do not loop at 0 |
| `RepriceRun.CooldownsAreServed` | backend/internal/scheduler/jobs_reprice.go:40-66 | over every run no call reaches a channel for 5 minutes after a rate limit, 15 after a block, 2 after an expired key and 30 after an expired login |
| `RepriceRun.SilentIffClean` | backend/internal/scheduler/jobs_reprice.go:113-269 | an uninterrupted pass reports no error exactly when the candidates were read and every one was decided, recorded and, if sent, confirmed, stored and marked |
| `RepriceRun.VisitWrites` | backend/internal/store/reprice.go:63-66 | a listing's terms and reprice time change exactly when a live decision was accepted, confirmed and stored, and become the decided ones; no other column or row changes, and only a confirmed backfill is marked |
| `RepriceRun.VisitInWords` | backend/internal/scheduler/jobs_reprice.go:132-225 | a candidate is sent exactly when the pass reaches it, its decision is accepted, the dry-run switch is off, execution is on both globally and for its template, and the channel is still free; what is recorded says whether it was live; when the pass stops; and how an error cools the channel down |
| `RepriceRun.VisitReports` | backend/internal/scheduler/jobs_reprice.go:163-257 | which operation errors a visit adds, in order |
| `RepriceRun.ChangedListingRests` | backend/internal/scheduler/jobs_reprice.go:146-160 | a listing that was just published or repriced is left alone for its cooldown |
| `Quotes.MergeRows` | backend/internal/store/reprice.go:272-316 | the byRank/order loop yields one quote per rank in order, with the row of each kind |
| `Quotes.Baseline` | backend/internal/pricing/engine.go:170-211 | the sampling loop and its three price formulas compute the specified baseline |
| `Quotes.LimitLosesNothing` | backend/internal/scheduler/jobs_reprice.go:274-287 | limiting to 3 × TopN rows gives the baseline of the unlimited list, for any row order, if and only if TopN ≥ 1 or there is no usable short price |
| `Quotes.LimitKeepsTop` | backend/internal/store/reprice.go:272-316 | the first TopN merged quotes of the first 3 × TopN rows are those of all rows |
| `Quotes.MergeOrderFree` | backend/internal/store/reprice.go:272-316 | rows of one rank may come back in any order |
| `Quotes.MergedInWords` | backend/internal/store/reprice.go:272-316 | the merged quotes are those of the ranks that occur, ascending, each with the short price, long price and deposit captured at its rank, 0 where there is none |
| `Quotes.SamplesInWords` | backend/internal/pricing/engine.go:175-190 | short prices and the deposits beside them count at the first ten positions, long prices at all, when positive and finite |
| `Quotes.MeanInWords` | backend/internal/pricing/engine.go:215-224 | the mean times its count is the sum, and sums add up |
| `Quotes.BaselineInWords` | backend/internal/pricing/engine.go:170-211 | each of the three prices is the discounted mean of its own samples, by its own coefficient, within its own bounds; 15 quotes count when TopN is not positive |
| `Quotes.BaselineBounds` | backend/internal/pricing/engine.go:170-211 | a baseline exists exactly when one of the window's first ten positions offers a usable short price; its deposit is not negative; its long price lies between a cent and the short price, which is at least the first usable offer, if and only if the short price is below 1e15 |
| `Controller.FactorStaysBounded` | backend/internal/pricing/engine.go:257-287 | from any stored factor, NaN included, every event ends within [FMin, FMax] up to the 4-decimal rounding |
| `Controller.NextFactorNearest` | backend/internal/pricing/engine.go:257-287 | for any parameters the next factor is the one with four decimals nearest to where the event aims, held within the bounds; a corrupted factor is reset by any event |
| `Controller.ControllerSaturates` | backend/internal/pricing/engine.go:257-287 | with four-decimal parameters every event is saturating integer arithmetic: rounding never loses or adds a unit |
| `Controller.BoughtOutIsTwoSuccesses` | backend/internal/pricing/engine.go:257-287 | with four-decimal parameters a buy-out equals two successful rentals, at the upper bound too, and a success never lowers the factor |
| `Controller.BoughtOutWithinAUnit` | backend/internal/pricing/engine.go:257-287 | with finer parameters the two differ by at most one unit |
| `Controller.FineStepsAreLost` | backend/internal/pricing/engine.go:257-287 | and they do for steps of 0.00004, which are lost one by one but not two at a time |
| `Controller.FoldBounded` | backend/internal/pricing/engine.go:257-287 | the same over every event sequence, whatever parameters were in force before the last event |
| `Controller.StaleReachesFloorAndResets` | backend/internal/scheduler/factor.go:207-271 | with StepDown ≥ 1e-4, stale scans strictly descend, are recognised at the floor within a bounded number of scans and not before, and the next scan resets |
| `Controller.SmallStepsAreRoundedAway` | backend/internal/pricing/engine.go:257-287 | away from the bounds a stale scan lowers the factor if and only if the step exceeds half a unit |
| `Controller.ResetLeavesFloorIff` | backend/internal/scheduler/factor.go:207-271 | a reset leaves the floor if and only if neutral, capped by FMax and rounded, is at least one unit above FMin |
| `Controller.StuckAtFloor` | backend/internal/scheduler/factor.go:207-271 | otherwise the listing is at the floor after any number of scans |
| `Controller.FloorIsRecognised` | backend/internal/scheduler/factor.go:269-271 | the rounded FMin is always recognised as the floor |
| `FactorFold.FoldInMemory` | backend/internal/scheduler/factor.go:50-117 | the indexed fold keeps one entry per listing, and writing the entries equals folding the moves one by one |
| `FactorFold.CheckAndMark` | backend/internal/store/factor.go:110-149 | the lock-and-recheck loop succeeds exactly when every planned order still matches its row, and marks all of them |
| `FactorFold.FactorStore.ApplyFactorFolds` | backend/internal/store/factor.go:110-149 | factors and markers are committed together or not at all |
| `FactorFold.FoldedExactlyOnce` | backend/internal/scheduler/factor.go:50-117 | in every reachable state each order is folded at most once, into its bound listing, the applied orders are those in the log, and each factor is the left fold of the controller over the log |
| `FactorFold.AppliedBindingIsFinal` | backend/internal/store/business.go:273-314 | once applied, an order stays applied and keeps its binding |
| `FactorFold.CommitIsCurrent` | backend/internal/store/factor.go:110-149 | a successful commit marks done and bought-out orders only, each in the listing it is bound to and for the first time, with the event that its row calls for at that moment |
| `FactorFold.UndisturbedRoundFolds` | backend/internal/scheduler/factor.go:50-117 | an undisturbed round takes any bound, unapplied, finished or bought-out order from selection to commit: its row is marked and its listing's factor moves by its event, and nothing else changes |
| `FactorFold.CorrectionVoidsPlan` | backend/internal/scheduler/factor.go:50-202 | a correction of any order in flight, selected or already planned, makes it outdated |
| `FactorFold.OutdatedStays` | backend/internal/store/factor.go:110-149 | an outdated order stays outdated, through the later term query too, until classification leaves it out or the round ends; a commit that still has one changes nothing |
| `FactorFold.BatchSplit` | backend/internal/scheduler/factor.go:50-117 | any split of a batch gives the same factors |
| `FactorFold.SuccessIffEarly` | backend/internal/scheduler/factor.go:135-162 | a buy-out is always signalled and nothing else as one; a finished rental signals success exactly when it ended before its term, with the fallback only for short or legacy orders |
| `FactorFold.KnownTerm` | backend/internal/scheduler/factor.go:186-202 | the days of a known term are its whole days, and none if it does not end after it starts |
| `FactorFold.HalfKnownTerm` | backend/internal/scheduler/factor.go:135-202 | with a start or due date missing, a finished rental signals success exactly if its days are fewer than the whole days to or from the query time, or, when there are none and the order is not long, than the listing's maximum days |
| `FactorFold.UnknownTermsSignal` | backend/internal/scheduler/factor.go:135-202 | three concrete unknown terms that signal a success |
| `FactorFold.RunStaleScan` | backend/internal/scheduler/factor.go:207-264 | the scan with its strategy cache steps exactly the due candidates that can be saved, and reports exactly those it resets, in order |
| `FactorFold.NextCandidate` | backend/internal/scheduler/factor.go:207-264 | one more candidate changes and reports nothing unless it is due and saved; otherwise its listing alone moves, by a reported reset exactly at the floor and a stale day elsewhere |
| `FactorFold.CandidateScans` | backend/internal/scheduler/factor.go:207-264 | a due candidate moves by exactly one step of the analysed controller |
| `LeaseOrders.OrderTable.UpsertLeaseOrder` | backend/internal/store/business.go:273-314 | an amount outside its column is refused and changes nothing; otherwise one row changes: status, amounts and terms as reported, markers kept, empty identity and dates kept, a terminal order's completion time reported, kept or now, the binding lost exactly by an unapplied order that changed identity, and a free order bound to its only candidate |
| `LeaseOrders.BindingIsKept` | backend/internal/store/business.go:273-314 | an applied order, and any order whose identity is repeated, keeps its binding through every report; an unapplied order that moved loses it |
| `LeaseOrders.IncomeSeesTheUpsert` | backend/internal/store/business.go:273-314 | the order sync of the income ledger is this upsert seen through the columns it reads |
| `LeaseOrders.FactorSeesTheUpsert` | backend/internal/store/business.go:273-314 | so are the sync and bind of the factor fold |
| `Income.IncomeStore.ApplyIncomeDelta` | backend/internal/store/analytics.go:138-144 | the entry's bucket moves by its exact amount and by one in the given direction; every other bucket stays |
| `Income.IncomeStore.ProjectOrderIncome` | backend/internal/store/analytics.go:98-136 | the transaction reverses the old entry, enters the new one and sets the marker |
| `Income.IncomeStore.RecordIncomeBatch` | backend/internal/store/analytics.go:61-89 | the loop over the sorted distinct ids equals projecting each of them |
| `Income.StatsAlwaysBalance` | backend/internal/store/analytics.go:98-144 | in every reachable state each bucket equals the sum and count of its ledger entries |
| `Income.SelectedIffUnsettled` | backend/internal/store/analytics.go:25-57 | the rollup query selects exactly the orders whose entry or marker is not that |
| `Income.ProjectSettles` | backend/internal/store/analytics.go:98-136 | projecting an order settles it: an entry exactly if it is done or bought out, on the UTC day of its completion or else last update, with its channel and amount and its template's category or the fallback; every other order and entry is left alone |
| `Income.BatchSettles` | backend/internal/store/analytics.go:61-89 | a batch removes exactly its ids from the pending set, whatever its order, duplicates and unknown ids |
| `Income.RollupsDrain` | backend/internal/store/analytics.go:25-89 | n rollups empty any pending set of at most n × limit orders |
| `Income.DrainedIsGroupBy` | backend/internal/store/analytics.go:25-144 | with nothing pending, the ledger is exactly the entries that the done and bought-out orders call for, and each bucket their group-by |
| `Income.RollupsReachGroupBy` | backend/internal/store/analytics.go:25-144 | from every reachable state, enough rollups make `daily_stats` that group-by |
| `Income.ResyncReopensNothing` | backend/internal/store/business.go:273-314 | syncing an unchanged terminal order again leaves the pending set as it is |
| `Jobs.Scheduler.RunDue` | backend/internal/scheduler/scheduler.go:124-165 | the locked loop claims exactly the due jobs that are not running, in order |
| `Jobs.TickInWords` | backend/internal/scheduler/scheduler.go:124-165 | a tick claims exactly the idle jobs whose time has come, once each in whatever order, and no other job, flag or execution changes; a stopped scheduler claims none |
| `Jobs.Scheduler.TriggerJob` | backend/internal/scheduler/scheduler.go:206-249 | a manual trigger reports stopped, unknown or running, in that order, and changes nothing then, or claims: flag, WaitGroup and one manual execution |
| `Jobs.Scheduler.RecordRun` | backend/internal/scheduler/scheduler.go:124-165 | next and last time, outcome and fail streak after a run; only a scheduled run gives up the flag here |
| `Jobs.Scheduler.Register` | backend/internal/scheduler/scheduler.go:67-89 | a job without a name or function, then a daily one whose time is malformed, then a duplicate is refused and changes nothing; any other is added idle, last in order |
| `Jobs.OneExecutionPerJob` | backend/internal/scheduler/scheduler.go:124-249 | over every interleaving at most one execution of a job is in flight, its flag is set, and the WaitGroup counts exactly the executions that have not left it |
| `Jobs.ExecutionCompletes` | backend/internal/scheduler/scheduler.go:143-249 | a claimed execution can always run to its end, which frees its job and leaves everything else alone |
| `Jobs.NoClaimAfterStop` | backend/internal/scheduler/scheduler.go:181-249 | after stop no tick or trigger starts anything |
| `Jobs.QuietAfterWait` | backend/internal/scheduler/scheduler.go:181-200 | once the wait completed, no job function runs or can start, ever after |
| `Session.SettingsStore.ChangeAdminPassword` | backend/internal/store/session.go:68-86 | the new hash is stored and the epoch grows by one exactly if the expected hash still stands and the epoch can be read; otherwise nothing changes |
| `Session.SettingsStore.BumpSessionEpoch` | backend/internal/store/session.go:43-53 | the stored epoch grows by one, or a corrupt one is reported and left |
| `Session.SettingsStore.RequireAuth` | backend/internal/api/server.go:257-296 | a token passes the version check exactly if it carries the stored epoch; an epoch that cannot be read lets nobody in |
| `Session.AcceptedTokenIsCurrent` | backend/internal/api/handlers_auth.go:208-259 | over every interleaving of logins, logouts and password changes, an accepted token came from a login verified against the hash stored now |
| `Session.RevocationIsFinal` | backend/internal/api/server.go:257-305 | after a logout or a committed password change, with a readable epoch, no earlier token, nor one a login under way will still obtain, is ever accepted |
| `Session.EpochMovesIff` | backend/internal/store/session.go:43-86 | exactly these two events move the epoch, by one, and only the password change moves the hash |
| `Session.LoginIsAccepted` | backend/internal/api/handlers_auth.go:208-259 | an undisturbed login with the right password yields a token that is accepted as long as the epoch stands |
| `Session.TokensNeedAPassedCheck` | backend/internal/api/handlers_auth.go:208-259 | over every interleaving, no token is issued unless some password check passed |
| `Session.EpochGrows` | backend/internal/store/session.go:43-86 | epochs never decrease, and every change of the hash strictly increases them |
| `Strategy.DeepMerge` | backend/internal/pricing/engine.go:140-157 | the recursive merge loop equals the key-by-key overlay of two trees |
| `Strategy.ParseIsOverlay` | backend/internal/pricing/engine.go:87-138 | parsing defaults, global and template documents is a plain overlay that is refused exactly for the listed ranges, nulls and type errors included: re-merging the typed global layer is idempotent |
| `Strategy.TemplateOverridesGlobal` | backend/internal/pricing/engine.go:87-157 | in every field the template overrides the global document, which overrides the default |
| `Strategy.EditsStayValid` | backend/internal/store/strategy_validation.go:24-104 | over every sequence of checked edits, the global parameters parse and validate, alone and under each enabled template |
| `Strategy.FreshStoreStaysValid` | backend/internal/store/strategy_validation.go:24-104 | the same from the store's initial state, whatever the edits |
| `Strategy.AcceptedGlobalEditIsValid` | backend/internal/api/handlers_admin.go:117-175 | whatever was stored before, an accepted global edit that stores parameters or switches execution on leaves every enabled combination valid |
| `Strategy.AcceptedTemplateEditIsValidIff` | backend/internal/store/strategy_validation.go:73-104 | after an accepted template edit the whole is valid if and only if the global document alone and every other enabled template were |
| `Strategy.LegacyTemplateSurvivesTemplateEdit` | backend/internal/store/strategy_validation.go:73-104 | next to an invalid legacy template another one is stored and made live |
| `Strategy.StrategyStore.UpdateGlobalChecked` | backend/internal/store/strategy_validation.go:24-71 | an accepted edit stores the given parameters, route and execution switch and keeps the others; a refusal changes nothing and has its reason; templates are untouched |
| `Strategy.StrategyStore.UpsertTemplateChecked` | backend/internal/store/strategy_validation.go:73-104 | an accepted edit stores parameters and route, enables the template, and keeps its live flag when none is given; the others are untouched, and a refusal changes nothing |
| `Strategy.StrategyStore.RemoveTemplateStrategy` | backend/internal/store/reprice.go:211-229 | a known template is removed and no other; an unknown one is reported |
| `Strategy.DefaultsAreValid` | backend/internal/pricing/engine.go:72-84 | a store without parameters runs on the default ones, and they are valid |
| `Strategy.StrategyStore.ValidateGlobal` | backend/internal/api/handlers_admin.go:98-115 | the validator loop accepts exactly when the candidate is valid alone and with every enabled template |
| `Proto.UvarintReadsBack` | backend/internal/platform/steam/proto.go:21-26 | a written base-128 varint reads back with its length, in front of any bytes (Protocol Buffers encoding) |
| `Proto.PutUvarintIsGroups` | backend/internal/platform/steam/proto.go:21-26 | a written varint is the seven-bit groups of its value, least significant first, with the continuation bit on all but the last, and no group too many (Protocol Buffers encoding) |
| `Proto.UvarintReadsGroups` | backend/internal/platform/steam/proto.go:76-123 | what any bytes read as: the groups up to the first clear continuation bit, at most ten, the tenth at most 1; otherwise cut off or too long |
| `Proto.LowByteFirst` | backend/internal/platform/steam/proto.go:36-49 | fixed-width numbers are little-endian |
| `Proto.WireFormat` | backend/internal/platform/steam/proto.go:19-65 | the bytes of a field of each type: its tag, with wire type 0, 1, 2 or 5, and its payload |
| `Proto.FieldReadsBack` | backend/internal/platform/steam/proto.go:19-123 | one written field reads back, with its number modulo 2^29, and the rest of the buffer is untouched |
| `Proto.RoundTripIff` | backend/internal/platform/steam/proto.go:61-65 | the round trip is exact if and only if the field number is below 2^29 |
| `Proto.MessageRoundTrip` | backend/internal/platform/steam/proto.go:19-123 | any written field sequence reads back exactly and the whole buffer is consumed |
| `Proto.EncodingIsInjective` | backend/internal/platform/steam/proto.go:19-65 | different field sequences never share an encoding |
| `Proto.NextConsumes` | backend/internal/platform/steam/proto.go:76-123 | on arbitrary bytes a field that is read consumes at least a byte and leaves a suffix |
| `Proto.Reader.ReadNext` | backend/internal/platform/steam/proto.go:76-123 | the reader agrees with the specification and never indexes out of range |
| `Proto.Writer.BytesField` | backend/internal/platform/steam/proto.go:53-65 | the buffer stays the encoding of the fields written so far, one field longer |
| `Proto.Writer.U64Field` | backend/internal/platform/steam/proto.go:21-26 | the same for a varint field |
| `Proto.Writer.F64Field` | backend/internal/platform/steam/proto.go:44-49 | the same for a fixed64 field |
| `Proto.Writer.F32Field` | backend/internal/platform/steam/proto.go:36-41 | the same for a fixed32 field, given the float's bits |
| `LoginMessages.EncodeBeginAuth` | backend/internal/platform/steam/login.go:251-262 | the message decodes to its eight fields, with their numbers and wire types |
| `LoginMessages.EncodePoll` | backend/internal/platform/steam/login.go:303-308 | the message decodes to its two fields |
| `LoginMessages.EncodeUpdateGuard` | backend/internal/platform/steam/login.go:310-317 | the message decodes to its fields, the Steam id as fixed64 and the code sign-extended |
| `LoginMessages.DecodeBeginResponse` | backend/internal/platform/steam/login.go:264-301 | the nested reader loops terminate on any bytes and agree with the meaning of the message: last scalar wins, confirmations in order, any bad field fails the whole |
| `LoginMessages.BeginResponseRoundTrip` | backend/internal/platform/steam/login.go:264-301 | a response with any confirmation types decodes to exactly what was put in |

## Left out

- ReconFixpoint.ReplanIsEmptyIff: assumes that the platform echoes an id for every publish, never one of a listing that is on the shelf, and never one id twice.
- Reprice.RepricingStopsUnlessItLoops: leaves out change caps within a billionth below 100 %, where only the run itself tells (`Reprice.RepricingStopsIff`).
- Reprice.RepricingConverges: assumes max_rent below 1e15 − 1, where `Round2` starts to collapse prices; the database columns hold less.
- Executor.ExecuteWithError: the guard against a publish without a valid decision; a planned publish carries one by construction.
- Income.StatsAlwaysBalance: an order amount outside numeric(12,2) is refused, as the column does; the width of the summed `daily_stats` column is not modelled.
- ShelfSnapshot.LocalWriteWins: database times are distinct instants of one clock; two writes in the same microsecond are not modelled.
- IEEE-754 rounding: prices are exact reals, so effects below the code's own tolerance of 1e-9 cents do not appear.
- Numeric listing ids: a row is identified by its unique (channel, goods_ref) pair.
- The write columns desired_state, sublet defaults and audit rows, and the log lines.
- The trusted wrappers `UpsertListingFromShelf` and `MarkMissingListings`, which are the same statements without an observation time.
- The SQL of `RoutableInventory`, of the strategy lookup and of the newest-per-(rank, kind) subquery; their results are inputs.
- JSON text: documents are trees, without duplicate or case-folded keys.
- `decodePoll` and `decodeRSAKey`, which repeat the loop of `decodeBeginResponse` with other fields.
- The rejection of an unknown channel or a zero observation time; channels and times are typed here.
- Jobs.Scheduler.Register: the scan of the two numbers in a daily time is an input; its length, colon and ranges are checked.
- The stop timeout, jitter and next-run computation of the scheduler, and panics inside job functions.
- Login limiters, bcrypt, JWT signing and token expiry; a password check is an arbitrary comparison with the hash that was read.
- HTTP clients, platform signing, the Steam login flow, the React frontend, configuration, migrations and dashboards.
