# EnergyShark master backend: a verified model

The `master` backend is a trading agent for one city. Several replicas share one
transactional database, talk to the other cities through an outbox and an inbox, and
to the central wallet through HTTP calls and events that may be repeated, delayed or
lost. This project models the protocols at its core as atomic transaction steps and
proves what holds over every run of them.

Check it with `dafny verify dfyconfig.toml` (Dafny 4.11).

## What is modelled

| part | modules |
|---|---|
| offer, outbox and the receiver's feed | `OfferEvents`, `MarketFeed`, `OfferPropagation` |
| bids, HOLD reservations, batch policies, answers | `Deals`, `SellerMarket`, `Allocation`, `MarketSafety`, `MarketAnswers`, `AcceptedTerms`, `BatchPolicies` |
| dispatch, recovery and expiry of swaps | `SwapDispatch`, `SwapRuns` |
| acceptance of swaps by the buyer | `SwapAcceptance`, `AcceptanceRuns` |
| ledger, budget carry-over, market facts, closing sweep | `Ledger`, `LedgerLaws`, `CycleAccounting`, `ClosingSweep`, `SettledSales` |
| sliding-window rate limiter | `RateLimits` |
| buying: bids, answers, autonomous purchases | `BidExchange`, `BuyerRuns`, `RoundTrip`, `AutonomousBuy` |
| negotiations and their payments | `Negotiations`, `NegotiationRuns`, `NegotiationDeadlines` |
| negotiation reports | `ReportDispatch`, `ReportRuns` |
| shared: exact amounts, stable sort | `Common`, `Money`, `Sorting` |

Each transaction that takes a row lock or the city's advisory lock is one atomic step;
HTTP calls and messages lie between steps. An object whose rows the code updates is a
class whose methods are proved against a function on its abstract value. A `...Runs`,
`...Safety` or `...Laws` module puts these functions into a step relation and proves
invariants by induction over all runs, with an `Enabled` predicate that says only what
the environment guarantees: generated identifiers are fresh, and a message is delivered
only if it was sent. A transaction that raises leaves the state as it was.

Amounts are exact: cents in the ledger, ten-thousandths for swap legs and offer prices,
real numbers where a decoded JSON number is compared. `RoundHalfUp` is the code's
`quantize(..., ROUND_HALF_UP)` for amounts that are not negative. Instants are integers
in microseconds. UUIDs of bids are the integers that their canonical text spells.

## What turned out

* The sweep's `PROPOSAL_NEVER_SENT` decision is safe, and with a wallet that only
  reports on swaps that were sent it is never taken
  (`SwapRuns.TruthfulRunsNeverGiveUpUnsent`): an intention that was never claimed has no
  deadline. An event without a swapId but with an expiry makes it reachable
  (`SwapRuns.UntruthfulEventLetsSweepGiveUp`).
* A terminal swap status is absorbing with one exception, which the code documents: a
  late settlement replaces another terminal status, without selling the released HOLD
  (`SwapRuns.TerminalIsAbsorbing`, `AcceptanceRuns.FinalStatusIsAbsorbing`).
* A superseded finish changes nothing by itself, but after a repeated POST that got a
  200 the wallet's state is applied even when the claim was superseded
  (`SwapRuns.SupersededReplayIsApplied`). The wallet's state is true either way.
* After a 202, with no attempt on the bid under way, a worker that was sent off
  before it may still repeat the POST: a swap-proposed that reaches the acceptor puts its
  record back to proposed. That worker is the only way (`AcceptanceRuns.AcknowledgedIsNotSentIff`),
  a legal run reaches it (`AcceptanceRuns.AcknowledgedIsSentAgain`), and the repeated POST
  has the same key.
* The thirty seconds are not the only deadline of a negotiation: when a connector's poll
  finds the cycle of an unsent proposal ended, the cycle's end becomes the deadline of the
  unanswered negotiation that it times out. A negotiation that timed out has either the
  thirty-second deadline that it had been waiting for, or that end, exactly when a poll timed
  it out (`NegotiationDeadlines.TimeoutHasCause`, reached in `NegotiationDeadlines.EndedCycleIsTheDeadline`).
* `finalize_closed_markets` promises that a closed market keeps no local energy. Its key
  is fixed per cycle, so in any history a sweep leaves none exactly when the cycle had
  none or no earlier sweep of its kind had found any (`ClosingSweep.SweepLeavesNothingIff`);
  a swap that settles after the first sweep leaves energy behind
  (`ClosingSweep.LateEnergyStays`, `ClosingSweep.SecondSweepLeavesEnergy`).
* The remote snapshot of the offer is certain exactly when the delivered messages were
  created at strictly increasing instants (`OfferPropagation.RemoteBelievesTheOffer`).
* Autonomous buying spends at most the available credits plus the credit line when that
  sum is positive, and nothing otherwise (`AutonomousBuy.TickKeepsItsLimits`).
* The buyer compares the code of a rejection with the code of its reason, and an
  unlisted reason has none: a rejection that fits in all else is processed under an
  unlisted reason exactly when it carries no code (`BuyerRuns.RejectionIsProcessedIff`,
  reached in `BuyerRuns.UnlistedReasonIsTaken`). So the reason on record is one of the
  protocol's exactly when a code came with it (`BuyerRuns.ProcessedReasonIsListedIff`).

## Model

| member | source | states |
|---|---|---|
| OfferEvents.SellerOffer.EnqueueSellerOffer | master/app/services/seller_offer.py:67-243 | an offer is opened exactly once per cycle, for an eligible open cycle and a quantity of at least minBid, stored with the row that announces it; otherwise nothing changes |
| OfferEvents.SellerOffer.EnqueueConfirmedOfferUpdate | master/app/services/seller_offer_events.py:26-80 | an update row is added exactly while the offer is active and the cycle still takes announcements |
| OfferEvents.SellerOffer.ChangeLocalOfferPrice | master/app/services/seller_offer_events.py:83-111 | new price and its announcement together, no row for an unchanged price, and each refusal leaves the state |
| OfferEvents.SellerOffer.WithdrawLocalOffer | master/app/services/seller_offer_events.py:114-137 | one withdrawal row with the change of status; repeating it adds nothing |
| OfferEvents.SellerOffer.CloseLocalOffers | master/app/services/seller_offer_events.py:140-166 | the active offer closes silently and no unpublished row stays to be sent |
| OfferEvents.SellerOffer.ListOutboundDispatch | master/app/routers/message_audit.py:245-275 | hands out a market row only within its span and when every earlier row of the cycle is published, and some row whenever one may go |
| OfferEvents.ReceiveMarketClosed | master/app/services/market_feed.py:161-180 | the cycle is closed, its open snapshots end, and the city's own offer closes with its waiting rows; a second close changes nothing |
| OfferEvents.SellerOffer.UpdateOutboundAudit | master/app/routers/message_audit.py:375-435 | a published row stays published and is never sent again; a failed one stays to be sent |
| OfferPropagation.PublishedIsPrefix | master/app/routers/message_audit.py:245-262 | in every run the published market rows of a cycle are a prefix of creation order |
| OfferPropagation.RemoteBelievesTheOffer | master/app/services/market_feed.py:75-158 | over a FIFO channel that repeats messages, before the close, the remote snapshot is certain iff creation instants strictly increase, and then equals the offer as it stood at the last delivered message |
| OfferPropagation.RepriceRounds | master/app/services/seller_offer_events.py:94-111 | the new price is within half a cent of the asked one, nothing else of the offer changes, and a row is added iff the price changed |
| OfferPropagation.CloseEndsAnnouncements | master/app/services/seller_offer_events.py:140-166 | after the step that closes the market of an offer, no continuation adds a row or hands one out |
| MarketFeed.FeedStore.ApplyOfferEvent | master/app/services/market_feed.py:75-158 | the snapshot after one offer event, in order, out of order or contradictory |
| MarketFeed.FeedStore.PersistMarketFeed | master/app/services/market_feed.py:183-230 | an event acts once: what conflicts with an earlier claim is refused or ignored |
| MarketFeed.ClaimsAreAdmitted | master/app/services/market_feed.py:183-230 | the claims are exactly those of the first arrivals of each identity |
| MarketFeed.SnapshotIsSortedReplay | master/app/services/market_feed.py:75-230 | for every arrival sequence a snapshot is certain iff its admitted events before the close are one offer, later updates, at most one last withdrawal; then it is their replay by timestamp |
| MarketFeed.OrderedExtends | master/app/services/market_feed.py:112-158 | an ordered history stays ordered iff the next event is a later one of the same offer that is not withdrawn |
| MarketFeed.NoArrivalsRevive | master/app/services/market_feed.py:75-180 | after any arrivals, no further sequence of arrivals clears an uncertainty, revives a withdrawn or closed snapshot or touches a closed cycle |
| SellerMarket.SellerDesk.AvailableKwh | master/app/services/seller_bid_rejections.py:28-38 | remaining energy less all HOLDs, not below zero |
| SellerMarket.SellerDesk.EnqueueBidRejected | master/app/services/seller_bid_rejections.py:41-121 | one rejection per message: the same again adds nothing, another is a conflict, a malformed one is refused |
| SellerMarket.SellerDesk.ReserveIncomingBid | master/app/services/seller_bid_acceptance.py:59-176 | a pending bid becomes reserved or rejected, any other bid is left; faults leave everything; the result tells which count grew |
| SellerMarket.SellerDesk.DecidePendingBid | master/app/services/seller_bid_acceptance.py:106-176 | the order of the checks, the HOLD and swap intention with the frozen price, or the rejection |
| SellerMarket.SellerDesk.RefusePendingBid | master/app/services/seller_bid_acceptance.py:35-56 | the rejection in the outbox and the bid's status in one step |
| SellerMarket.SellerDesk.ProcessIncomingBid | master/app/services/incoming_bids.py:37-138 | claims the idpk, stores the bid when it names the local offer, answers a refusal, reserves at once under FIFO; all or nothing |
| SellerMarket.SellerDesk.ProcessDueSellerBids | master/app/services/seller_bid_policy.py:121-167 | one offer's due batch is decided in the policy's order, all or nothing, and the counts of reserved, rejected, waiting and FIFO bids are what happened |
| SellerMarket.SellerDesk.EnqueueBidAcceptedAfterSwapProposed | master/app/services/seller_bid_accepted.py:91-189 | an answer is added exactly when the event, the swap, the HOLD and the frozen terms agree and none was given |
| SellerMarket.ErrorStops | master/app/services/seller_bid_policy.py:159-167 | a fault in the middle of a batch is the fault of the batch |
| Allocation.SmallestFirstIsMaximal | master/app/services/seller_bid_policy.py:78-84 | no eligible choice that fits has more bids than taking the smallest first |
| Allocation.LargestFirstTakesHalf | master/app/services/seller_bid_policy.py:78-84 | taking the largest first reserves at least half the energy of any eligible choice that fits |
| Allocation.TakesAllOrFills | master/app/services/seller_bid_policy.py:156-166 | a greedy pass takes every eligible bid or leaves less free than the largest bid |
| Allocation.GreedyFits | master/app/services/seller_bid_acceptance.py:120-132 | what a pass takes is eligible, offered and fits |
| BatchPolicies.BatchRefinesGreedy | master/app/services/seller_bid_policy.py:156-166 | after each bid of a batch the rows show the greedy choice so far: availability, count and every decision |
| BatchPolicies.TickIsGreedy | master/app/services/seller_bid_policy.py:87-167 | a due tick on an open market never fails and makes the greedy choice in the policy's order |
| BatchPolicies.BatchServesMostBuyers | master/app/services/seller_bid_policy.py:78-84 | BATCH reserves exactly as many bids as the largest feasible choice has |
| BatchPolicies.LargestFirstReservesHalf | master/app/services/seller_bid_policy.py:78-84 | MAX_REMAINING reserves at least half the energy of every feasible choice |
| BatchPolicies.NothingThatFitsIsRefused | master/app/services/seller_bid_acceptance.py:130-176 | under any policy reserved energy plus final availability is the initial availability, every waiting bid is decided, and none refused for quantity fits |
| MarketSafety.NeverOversold | master/app/services/seller_bid_rejections.py:28-38 | in every run HOLD plus sold never exceeds the offer, remaining is initial less sold, and the clamp at zero is never needed |
| MarketSafety.EveryRunIsBalanced | master/app/services/seller_bid_acceptance.py:79-173 | the balance and the frozen terms of every bid survive all steps |
| MarketSafety.DealStepKeepsTerms | master/app/services/wallet_service.py:229-335 | no step of a swap changes its bid, key, legs, counterpart, memo or price |
| MarketSafety.FirstFactDecides | master/app/services/wallet_service.py:337-378 | the first terminal fact about a deal commits the HOLD iff it is a settlement, else releases it, and in every continuation of the run the HOLD stays so |
| MarketSafety.HoldsMirrorSwaps | master/app/models.py:746-776 | in every run energy is on HOLD exactly while its swap is under way, and sold only when it settled |
| MarketAnswers.OneCommercialAnswer | master/app/services/seller_bid_rejections.py:81-96 | with one idpk per msgId, no two answers name the same message, each says what became of the bid, and decided bids have one |
| MarketAnswers.EveryNewBidIsTaken | master/app/services/incoming_bids.py:92-138 | a new well-formed bid never fails, its idpk is claimed, and it is answered iff it is refused, else it is pending, or reserved at once under FIFO |
| MarketAnswers.EveryRunKeepsInv | master/app/services/incoming_bids.py:108-138 | keys, answers and bids stay in step through ingress, batches, wallet events and acceptances |
| AcceptedTerms.EveryAcceptanceHasCause | master/app/services/seller_bid_accepted.py:103-188 | every bid-accepted goes back to a central swap-proposed on a reserved bid with a HOLD of its exact quantity and a swap with the same legs |
| AcceptedTerms.PriceIsFrozen | master/app/services/seller_bid_acceptance.py:144-171 | a bid's price is the offer's price at the step that reserved it, whatever repricing follows |
| SwapDispatch.DealRow.ClaimOne | master/app/services/seller_swap_dispatch.py:62-127 | when a claim succeeds, which amounts are an error, what it freezes, and the request it hands out |
| SwapDispatch.DealRow.Finish | master/app/services/seller_swap_dispatch.py:130-179 | the finish of an attempt: nothing without the claim token, nothing but the lease and acceptance once the swap moved on, else the outcome |
| SwapDispatch.DealRow.ApplyWalletObservation | master/app/services/wallet_recovery.py:91-149 | the state read from the wallet for a proposer, and whether it settles the attempt |
| SwapDispatch.DealRow.ExpireRecord | master/app/services/swap_timeouts.py:80-109 | local expiry of a swap that is not terminal, with its HOLD and bid |
| SwapDispatch.DealRow.ExpireStaleSwap | master/app/services/swap_timeouts.py:235-358 | the sweep's decision on one stale proposal, by what the wallet answers, up to the request to cancel |
| SwapDispatch.SweepTouchesHoldIff | master/app/services/swap_timeouts.py:235-358 | energy leaves HOLD exactly on an expiry or a settlement; a request to cancel or an uncertain answer changes nothing |
| SwapRuns.OneRequestPerBid | master/app/services/seller_swap_dispatch.py:62-127 | in every interleaving all POSTs of a bid have the same key, expiry, amounts and memo, and an idempotent wallet makes at most one swap |
| SwapRuns.SupersededFinishChangesNothing | master/app/services/seller_swap_dispatch.py:130-145 | the finish of any but the latest claim changes nothing |
| SwapRuns.NoClaimAfterDone | master/app/services/seller_swap_dispatch.py:69-92 | once acceptance is recorded or the status left SUBMITTED, no later step of the run claims |
| SwapRuns.TerminalIsAbsorbing | master/app/services/wallet_recovery.py:104-149 | in every continuation of every run a terminal status stays, or is SETTLED exactly when a settlement arrived since, and the reservation never changes |
| SwapRuns.SwapIdIsStable | master/app/services/wallet_service.py:253-254 | a known swapId is never replaced, in no continuation of no run |
| SwapRuns.UnsentReleaseIsSafe | master/app/services/swap_timeouts.py:240-253 | a release as never sent happens only where no POST was claimed or sent, ends the deal, and none is sent after it |
| SwapRuns.TruthfulRunsNeverGiveUpUnsent | master/app/services/swap_timeouts.py:140-159 | with a truthful wallet that release is never taken |
| SwapRuns.UntruthfulEventLetsSweepGiveUp | master/app/services/swap_timeouts.py:240-253 | the event that makes it reachable |
| SwapRuns.ClaimsAreLeaseApart | master/app/services/seller_swap_dispatch.py:62-127 | in every legal run two claims of one intention lie at least a lease apart, unless a report on the first or a later one lies between |
| SwapRuns.LeaseExcludes | master/app/services/seller_swap_dispatch.py:77-112 | during a lease nobody else claims, and a claimed request has more than the margin left |
| SwapRuns.EveryClaimIsValid | master/app/services/seller_swap_dispatch.py:102-109 | in every run the amounts of a reserved bid are whole, so a claim is never refused for them |
| SwapRuns.SupersededReplayIsApplied | master/app/services/seller_swap_dispatch.py:130-179 | a superseded finish with the wallet's state is the observation alone, and settles an open swap |
| SwapRuns.FinishDecides | master/app/services/seller_swap_dispatch.py:130-179 | after which outcome an intention is claimable again, and when exactly |
| SwapRuns.BackoffBounds | master/app/services/seller_swap_dispatch.py:165-179 | the wait grows to a minute at most on its own and never undercuts what the wallet asked for |
| SwapAcceptance.AcceptorRow.TakeLease | master/app/services/swap_accept.py:251-262 | a final status or a running lease sends the worker away |
| SwapAcceptance.AcceptorRow.ApplyWalletObservation | master/app/services/wallet_recovery.py:104-149 | the state read from the wallet for an acceptor; proposed alone proves nothing |
| SwapAcceptance.AcceptorRow.InspectKnownSwap | master/app/services/swap_accept.py:264-280 | a GET settles the attempt or lets it go on |
| SwapAcceptance.AcceptorRow.PrepareSend | master/app/services/swap_accept.py:282-298 | expiry, final and confirmed records stop the POST, else the sentinel is stored first |
| SwapAcceptance.AcceptorRow.ConcludeAttempt | master/app/services/swap_accept.py:337-361 | the reply is recorded unless the record became final meanwhile |
| SwapAcceptance.AcceptorRow.ExpireStaleAcceptance | master/app/services/swap_timeouts.py:255-358 | a stale acceptance ends only by the wallet's word on the same swap, which expires the bid behind it unless the swap settled; else a request to cancel, or nothing |
| AcceptanceRuns.OneAcceptancePerBid | master/app/services/swap_accept.py:384-441 | all POSTs of a bid are the same, different bids use different keys, and a bid with an invalid token is never sent |
| AcceptanceRuns.FinalStatusIsAbsorbing | master/app/services/swap_accept.py:251-360 | from any point of any interleaving a final status stays and no attempt starts; only a settlement replaces it |
| AcceptanceRuns.AcknowledgedIsNotSentIff | master/app/services/swap_accept.py:240-361 | after a 202 with no attempt under way, no continuation issues another POST of the bid, iff no worker sent off earlier is still on its way |
| AcceptanceRuns.AcknowledgedIsSentAgain | master/app/services/swap_accept.py:240-361 | a legal run that reaches the other case: two workers select a bid, the first gets its 202, and the second POSTs again after a swap-proposed |
| AcceptanceRuns.ConcludedAttempt | master/app/services/swap_accept.py:337-361 | only a refusal is final, and only a retry makes the record workable again, after its wait |
| Ledger.CityLedger.ApplyLedgerEffect | master/app/services/ledger.py:9-95 | an effect is appended once per key and operation, with its balance and number, and money is carried on |
| Ledger.CityLedger.SynchronizeBudgetCarryover | master/app/services/budget_carryover.py:19-45 | each opened cycle is adjusted to the balance before it; equal deadlines are refused |
| Ledger.CityLedger.RebuildCycleBalances | master/app/services/ledger.py:97-124 | opening plus the sum of all deltas |
| Ledger.CityLedger.ValidateCycleConsistency | master/app/services/ledger.py:127-163 | some balances iff replay equals the stored balances |
| Ledger.CityLedger.Ingest | master/app/routers/internal_messages.py:204-342 | a status-statement, or a message that posts one effect, acts once per idpk, and an exception undoes all of it |
| LedgerLaws.EveryCommittedBalance | master/app/services/budget_carryover.py:19-45 | after any run balances equal replay, numbers are 1..n, the chain adds up and one more synchronisation appends nothing |
| LedgerLaws.BudgetClosedForm | master/app/services/budget_carryover.py:28-45 | the budget of the k-th opened cycle is the sum of all own effects of cycles 0..k |
| LedgerLaws.ChronologyIsByDeadline | master/app/services/budget_carryover.py:20-27 | the chain lists exactly the opened cycles by strictly increasing deadlines |
| LedgerLaws.SynchronizeTwiceIsOnce | master/app/services/budget_carryover.py:19-45 | a second synchronisation appends nothing |
| LedgerLaws.SynchronizeChains | master/app/services/budget_carryover.py:28-45 | one synchronisation restores the chain from any booked state |
| LedgerLaws.OpenStaysSound | master/app/routers/internal_messages.py:301-342 | late openings and re-dated cycles keep a sound ledger, and no entry is rewritten |
| LedgerLaws.ApplyStaysSound | master/app/services/ledger.py:9-95 | a business effect on a sound ledger always commits and leaves a sound one |
| LedgerLaws.EveryRunIsSound | master/app/services/ledger.py:9-95 | soundness over any run of messages, repeats and status-statements |
| LedgerLaws.EachEffectOnce | master/app/services/ledger.py:48-71 | the entries are exactly the first occurrence of each key and operation, plus carry-overs |
| CycleAccounting.ComputeAssetEffects | master/app/services/cycle_accounting.py:36-51 | the deltas of a swap, and that the counterpart's are their opposite |
| CycleAccounting.ApplySwapSettled | master/app/services/cycle_accounting.py:54-104 | a settled swap is one ledger effect keyed by its swapId |
| CycleAccounting.ApplyTradeTransport | master/app/services/cycle_accounting.py:107-143 | only the buyer books the transport |
| CycleAccounting.SettlementAndTransportOnce | master/app/services/cycle_accounting.py:80-143 | settlement and transport of one swap share a key, are both booked and each only once |
| CycleAccounting.ApplyImbalanceSettlement | master/app/services/cycle_accounting.py:146-213 | the settlement and the burn of the energy that is left |
| CycleAccounting.SettlementLeavesNothingIff | master/app/services/cycle_accounting.py:192-213 | no energy is left after a settlement iff there was none or this burn is new |
| ClosingSweep.FinalizeClosedMarkets | master/app/services/cycle_accounting.py:216-296 | the burn in every opened cycle whose market closed or report window opened, in the order of cycle ids, with both counts |
| ClosingSweep.SweepLeavesNothingIff | master/app/services/cycle_accounting.py:216-296 | after any history of messages and sweeps, no energy is left in a selected cycle iff there was none, or no earlier sweep of its kind had found any; other cycles keep theirs |
| ClosingSweep.BurntIffSweptBefore | master/app/services/cycle_accounting.py:247-268 | a closing burn is on record exactly when an earlier sweep of its kind found energy in the opened cycle |
| ClosingSweep.EveryHistoryIsSound | master/app/services/cycle_accounting.py:216-296 | sweeps between messages keep the ledger's balances, numbering and chain |
| ClosingSweep.LateEnergyStays | master/app/services/cycle_accounting.py:255-268 | in every history, energy booked after the sweep that emptied the cycle is left by the next one |
| ClosingSweep.SecondSweepLeavesEnergy | master/app/services/cycle_accounting.py:222-227 | such a history: an opened cycle, a sweep that empties it, a late swap-settled, a sweep that leaves its energy |
| SettledSales.SettledIsBookedOnce | master/app/services/wallet_service.py:229-273 | in every run of wallet events, reads, sweeps, claims and other messages the ledger books the swap exactly once if it settled, late or not, else not at all, with the amount frozen at the reservation |
| RateLimits.OperationalRateLimit.Reserve | master/app/services/operational_rate_limits.py:60-77 | a grant is recorded, a deferral tells how many seconds to wait |
| RateLimits.OperationalRateLimit.Block | master/app/services/operational_rate_limits.py:80-89 | the deadline only moves later |
| RateLimits.EveryWindowWithinLimit | master/app/services/operational_rate_limits.py:60-77 | every half-open minute of every run holds at most the category's limit of grants |
| RateLimits.NoGrantBeforeDeadline | master/app/services/operational_rate_limits.py:66-89 | no grant before the deadline of an earlier block |
| RateLimits.DeferralIsExact | master/app/services/operational_rate_limits.py:68-77 | the wait told is enough and the least number of whole seconds |
| BidExchange.BuyerDesk.EnqueueBuyBid | master/app/services/buy_bids.py:37-116 | a bid and its outbox row together, a repeat is recognised, every refusal leaves the state |
| BidExchange.BuyerDesk.RenewFailedBidDispatches | master/app/services/buy_bids.py:119-162 | each failed attempt ends and a bid that still waits goes out under a new msgId with the same idpk |
| BidExchange.BuyerDesk.ProcessBidReply | master/app/services/bid_responses.py:47-133 | the correlation checks in order; a processed answer resolves the bid and stops its attempts, any other changes nothing |
| BuyerRuns.OneLiveAttempt | master/app/services/buy_bids.py:119-162 | in every run a bid has at most one attempt to send, the one it shows, and none once it was answered |
| BuyerRuns.ProcessedIsCorrelated | master/app/services/bid_responses.py:57-133 | only an answer of the city that an attempt went to, about that attempt, resolves a bid, and no other bid changes |
| BuyerRuns.OutstandingIsBounded | master/app/services/buy_bids.py:62-75 | in every run, through renewals, answers and expiries, unanswered and accepted bids never claim more of an offer than the feed ever had of it |
| BuyerRuns.RejectionIsProcessedIff | master/app/services/bid_responses.py:104-121 | a rejection that fits in all else is processed iff its code belongs to its reason, and under an unlisted reason iff it has no code |
| BuyerRuns.UnlistedReasonIsTaken | master/app/services/bid_responses.py:104-121 | a run with one order, and an answer with neither a listed reason nor a code that ends the bid |
| RoundTrip.AmountsAgree | master/app/services/bid_responses.py:93-99 | the buyer's quantised decimal equals the amount that the seller froze in whole cents |
| RoundTrip.EveryAnswerWasAsked | master/app/services/seller_bid_accepted.py:159-181 | every answer of every run repeats the terms of a message that arrived |
| RoundTrip.EveryAnswerIsUnderstood | master/app/services/bid_responses.py:57-133 | an answer to whichever attempt passes every check while the bid is pending and is recorded as meant; later it is already resolved |
| RoundTrip.SellerAndBuyerAgree | master/app/services/seller_bid_rejections.py:98-118 | the same for any run of a seller against any run of a buyer |
| RoundTrip.SecondAnswerChangesNothing | master/app/services/bid_responses.py:75-77 | after one processed answer every other answer to the bid is refused |
| AutonomousBuy.AutonomousBuyTick | master/app/services/autonomous_buy.py:88-224 | the bids that the tick adds are exactly the planned purchases whose orders were taken |
| AutonomousBuy.TickKeepsItsLimits | master/app/services/autonomous_buy.py:140-222 | distinct offers without an active bid, quantities between minBid and remaining, cost covered, new plus active within the deficit rounded up |
| AutonomousBuy.ChosenIsAffordable | master/app/services/autonomous_buy.py:184-198 | a chosen quantity is wanted, on offer and paid for by the capacity |
| Negotiations.NegotiationDesk.MeasureSoldEnergy | master/app/services/negotiation_rules.py:102-119 | the energy given in the cycle, over all entries |
| Negotiations.NegotiationDesk.TransitionNegotiation | master/app/services/negotiation_state.py:78-200 | late messages are ignored, forbidden moves are errors, allowed ones set status and deadline |
| Negotiations.NegotiationDesk.ProcessNegotiationConfirmation | master/app/services/negotiation_confirmations.py:26-247 | the checks in order, the energy booked once, the row, proposals and correlation updated |
| Negotiations.NegotiationDesk.EnqueueTakePayment | master/app/services/negotiation_payments.py:81-323 | a confirmed take is paid once, with ledger effect, transfer and row together |
| Negotiations.NegotiationDesk.ProcessGivePayment | master/app/services/negotiation_payments.py:330-529 | only the expected amount for a confirmed give is booked, and only once |
| Negotiations.NegotiationDesk.ProcessExpiredNegotiations | master/app/services/negotiation_timeouts.py:23-104 | exactly the negotiations whose deadline passed time out, and their number is returned; a confirmed take does not |
| NegotiationRuns.EachNegotiationIsBookedOnce | master/app/services/negotiation_payments.py:49-74 | in every run the ledger's effects of a negotiation are exactly what its row tells: one confirmation and one payment at most, the payment rounded half up from energy times price |
| NegotiationRuns.NeverGivesTooMuch | master/app/services/negotiation_rules.py:86-137 | with a fixed status a cycle never gives more than generation less consumption |
| NegotiationRuns.EveryConfirmationIsFair | master/app/services/negotiation_confirmations.py:117-122 | in every run confirmed energy was asked for and has the settlement price of its cycle |
| NegotiationRuns.LedgerStaysSound | master/app/services/negotiation_confirmations.py:176-209 | negotiations keep the ledger's balances, numbering and chain |
| Negotiations.NegotiationDesk.PublishProposal | master/app/routers/message_audit.py:375-402 | a published proposal waits no longer, and its unpublished negotiation is proposed with thirty seconds from the publication |
| Negotiations.NegotiationDesk.ListOutboundProposals | master/app/routers/message_audit.py:226-238 | no proposal of an ended cycle is sent, and its unanswered negotiation times out with the cycle's end as its deadline |
| Negotiations.NegotiationDesk.ReceiveNegotiationProposal | master/app/routers/internal_messages.py:506-546 | a proposal of the central opens one negotiation per idpk, with thirty seconds to answer |
| NegotiationRuns.EveryRunKeepsInv | master/app/services/negotiation_confirmations.py:26-247 | rows, ledger, claims and capacity stay in step through proposals of both sides, answers, payments, polls, timeouts, retries and repeated messages |
| NegotiationDeadlines.FinalNegotiationsStay | master/app/services/negotiation_state.py:53-64 | in every continuation of every run a paid or rejected negotiation keeps its status, energy, price and deadline |
| NegotiationDeadlines.EveryRunStaysGood | master/app/services/negotiation_state.py:147-195 | in every run a negotiation that has not timed out has a deadline exactly while it waits for an answer or a payment, idpks are unique, and a proposal has the cycle of its negotiation |
| NegotiationDeadlines.OpenDeadlineHasCause | master/app/services/negotiation_state.py:147-188 | the deadline of a proposed, acknowledged or confirmed negotiation was set thirty seconds ahead by one step about that very negotiation, a publication, the ack of an unpublished proposal, a give confirmation or the central's own proposal, before which it did not wait until then, and nothing moved it since |
| NegotiationDeadlines.TimeoutHasCause | master/app/routers/message_audit.py:226-238 | a negotiation that timed out did so in one step and kept its deadline since: the passed deadline with the cause above, or the end of its cycle exactly when a poll after that end timed it out |
| NegotiationDeadlines.PollEndsExactly | master/app/routers/message_audit.py:226-238 | after any run a poll times out exactly the unanswered negotiations of ended cycles with a proposal still to send, and changes no other row |
| NegotiationDeadlines.EndedCycleIsTheDeadline | master/app/routers/message_audit.py:226-238 | a run without publication, ack or confirmation that ends with a deadline, the end of the cycle |
| ReportDispatch.ReportDesk.ExpireReportDispatches | master/app/services/negotiation_report_dispatch.py:18-49 | all waiting rows of an ended or unknown cycle stop, with their reports |
| ReportDispatch.ReportDesk.EnqueueDueNegotiationReport | master/app/services/negotiation_report_dispatch.py:64-91 | a due cycle gets a row for new balances, which supersedes older waiting rows, and the result tells whether it did |
| ReportDispatch.EnqueueDueNegotiationReports | master/app/services/negotiation_report_dispatch.py:52-93 | every cycle with its own balances, and the number of rows that were added |
| ReportDispatch.ReportDesk.ProcessReportError | master/app/services/negotiation_report_dispatch.py:96-152 | the effect of the central's error: expiry, deferral with a new attempt, rejection, or nothing |
| ReportDispatch.ReportDesk.UpdateOutboundAudit | master/app/routers/message_audit.py:352-373 | a published row stops waiting, keeps a lasting error and the instant of its first publication |
| ReportDispatch.ReportDesk.MarkNegotiationReportSent | master/app/services/negotiation_report_dispatch.py:155-176 | only the last attempt without error publishes its report |
| ReportRuns.OneWaitingRow | master/app/services/negotiation_report_dispatch.py:73-90 | in every run at most one row of a cycle waits for dispatch: the last attempt of the latest report |
| ReportRuns.NewBalancesGoOut | master/app/services/negotiation_report_dispatch.py:65-91 | a due cycle with balances not yet reported gets one dispatchable row with them, and every older row stops |
| ReportRuns.DeferredAttemptsWait | master/app/services/negotiation_report_dispatch.py:130-149 | attempts repeat idpk and balances of their report, and a deferred one is not handed out before the opensAt it was told |
| ReportRuns.CurrentErrorDecides | master/app/services/negotiation_report_dispatch.py:122-151 | an error about the current attempt ends the report or defers it with one more attempt |
| ReportRuns.LateErrorsChangeNothing | master/app/services/negotiation_report_dispatch.py:107-121 | an error has an effect iff it is about the last attempt of the latest report while that is open |
| ReportRuns.RepeatedResultChangesNothing | master/app/routers/message_audit.py:358-366 | a publication that is reported again changes neither row nor report |
| Money.RoundHalfUpUnique | master/app/services/negotiation_rules.py:37-41 | rounding half up is the only whole number within half a unit, a tie going up |

## Left out

- Rounding of balances by the database to two or four decimals, and prices as binary floats in JSON: amounts are exact.
- Signatures of swap tokens and their key sets: "the token matches the record" is an input.
- Connector loops, HTTP calls, metrics, read-only projections and schema validation: input and output or field copying.
- `calculate_offer`: the quantity and the price of a new offer are inputs.
- `record_market_feed_gap`: the feed is modelled without the connector's gap report.
- The fingerprint of a feed payload is modelled by the fields it covers, so hash collisions are not modelled.
- Collisions of generated identifiers: `Enabled` assumes that they are fresh.
- Races inside `expire_stale_swaps`, which calls the wallet within its session: each record's decision is one step.
- Wallet reconciliation, balance snapshots, candidate ordering and transport pricing: candidates and prices are inputs.
- `attempt_count` and timestamps of outbox rows outside the rate limiter, leases and deadlines: no decision depends on them.
- The correlation of a wallet event with its swap record by swapId or key: an event step names the deal.
- ReportDispatch.EnqueueDueNegotiationReports: the query for due cycles is the check inside each cycle's own step; a report requested under a caller's own idpk is not modelled, because no caller in the backend does so.
- SellerMarket.SellerDesk.ProcessDueSellerBids: the body of the loop for one offer; the query for candidate offers and the skipping of locked ones are not modelled.
- MarketFeed.FeedStore.PersistMarketFeed: the city's own offer closes in `OfferEvents.ReceiveMarketClosed`, which holds both objects.
- Ledger.CityLedger.Ingest: the messages that post one effect and the status-statement; the other message types are in the modules of their parts.
- SwapDispatch.DealRow.ExpireStaleSwap: the wallet's answer to the request to cancel changes no row and is not modelled.
- BidExchange.BuyerDesk.EnqueueBuyBid: the feed's candidates and the other direction's idpk are inputs.
- SwapAcceptance.AcceptorRow.ConcludeAttempt: the message text of an HTTP error is reduced to its code.
- SellerMarket.SellerDesk: the offer's own rows change through the functions of `OfferEvents`, on values.
- Negotiations.NegotiationDesk: the ledger is a field updated through the function that `Ledger.CityLedger` is proved against, on values.
