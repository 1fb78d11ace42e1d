# Verification model of the raidex commitment service and trading node

raidex trades tokens off chain. A *maker* and a *taker* each deposit a commitment with a *commitment service*; the
service picks one taker among those that compete, proves the deposits to both sides, and pays the deposits back once
both report that they exchanged their tokens. This project models the service, the trading node and the chart
computations, and proves what they keep over every run.

`dafny verify dfyconfig.toml` checks all of it.

## How the model is built

Each stateful part appears twice: as a class whose methods follow the source statement by statement, and as a function
on values that says what a step does. Every method is proved to make exactly the step of its function, and what the
source promises is proved about all runs of the functions.

| part | values | objects | theorems |
|---|---|---|---|
| one swap at the service | `SwapProtocol` (`Fire`, with the ledger of a whole life), `SwapMachine` (the transition table and its interpreter) | `SwapObjects.SwapCommitment` | `SwapProtocol`, `SwapMachine.TableMeansFire` |
| the whole service | `Service` | `SwapObjects.CommitmentService` | `ServiceLaws`, `ServiceRuns` |
| one offer on a node | `OfferMachine` (nested states), `OfferDeals` (handlers) | `NodeObjects.Offer`, `NodeObjects.Match` | `OfferMachine` |
| maker, takers, service and network | `Agreement` | | `AgreementLaws`, and single moves (`AgreementMoves`) making up the runs of `CompletedRun` and `LateCommitment` |
| order book and matching | `OfferBook`, `Matching`, `Sorting` | `OfferBook.OfferView`, `OfferBook.OfferBook` | `OfferBook`, `Matching` |
| a whole node | `Node` | `NodeObjects.DataManager`, `NodeObjects.LimitOrder` | `NodeLaws`, `NodeRuns`, `Market` |
| transfer notifications | `RaidenListener` | `RaidenListener.RaidenListener` | `RaidenListener` |
| charts | `Trades`, `Grouping`, `PriceBins` | `PriceBins.PriceBin` | `Grouping`, `PriceBins` |

`SwapTypes`, `Offers` and `Bags` (images and sums of multisets) serve all of them.

What stands for the outside world:

- Greenlets, queues, HTTP and the message broker become events and packets that arrive in any order, any number of
  times, or never. A trigger runs without a greenlet switch, so it is one step.
- Addresses, secrets, hashes and signatures are opaque numbers, and senders are authentic.
- The clock, fresh ids, fresh secrets and the answer of a transfer are parameters.
- `MachineError`, a missing dictionary key and the other exceptions become a rejected result that changes nothing
  (for a swap), or `None`/`ok == false` (for a node's handler).
- The service keeps a multiset of refunds, since every call uses the same priority.
- Prices are exact reals, price quanta are counted as whole numbers rounded down, amounts are integers, and the fee
  rate is a real; the refund transfer cuts its amount down to whole units, as `TraderClient.transfer` does.

## What the agreement theorems assume

One maker, one service, any number of takers, all running this code; each deposit is reported to the service once (the
listener remembers the events it has seen); the maker is not the service; and no commitment for the offer reaches the
service after its swap was processed. The last assumption is the flag `late` of `Agreement.Setting`.
`LateCommitment.ExclusionNeedsPromptness` shows that exclusion holds over all runs exactly when it is made: without it, a
taker's delayed commitment opens a second swap for the same id with the taker in the maker's place
(`raidex/commitment_service/tasks.py:160-165`), the service proves that commitment to the taker, and the taker pays a maker
whose own offer is canceled.

## Where the code differs from its promise

Each comes with its exact condition or bound, and with an input or a run that fails.

- `OfferView.add_offer` leaves a stale entry in the sorted index when an id is added again at another price
  (`OfferBook.AddingAgreesIff`, `OfferBook.StaleEntryStays`).
- The lowest price of a bin counts as missing when it is zero, so the close can fall below the reported minimum
  (`PriceBins.ChartCloses`, `PriceBins.CloseBelowMinimum`).
- In a market whose two tokens are the same, a sell offer is read back as a buy (`Market.OfferRoundTrip`).
- `process_order` raises when a matching offer's timeout has already run out: the takes before it are done, and the
  offer in question stays in the book although it is now among the node's own (`NodeLaws.OrderConserved`,
  `NodeLaws.RaisingLeavesHalf`, reached by the run of `NodeLaws.RaisingIsReachable`).
- `find_time_bin` moves the stop by the offset twice (`Trades.OffsetStretches`); no caller passes an offset.
- `match_limit` can fill little more than half of what the best choice fills (`Matching.TwiceIsTight`), and never less.

## Model

| member | source | states |
|---|---|---|
| `SwapMachine.TableMeansFire` | `raidex/commitment_service/swap_state_machine.py:24-92` | for every swap and trigger, looking the trigger up in the transition table (first listed transition whose source and conditions fit, callbacks in order, `finalize` nested) gives exactly the outcome stated directly by `SwapProtocol.Fire` |
| `SwapMachine.PerformAllIsAfter` | `raidex/commitment_service/swap_state_machine.py:58-61` | callbacks of a list run one after the other, each on what the ones before it left |
| `SwapProtocol.StepKeepsAccount` | `raidex/commitment_service/swap_state_machine.py:24-92` | every trigger in every state keeps the whole invariant of a swap: which fields are set, what was refunded receipt by receipt, what was announced in which order, first come first served, one timeout |
| `SwapProtocol.ShapeKept` | `raidex/commitment_service/swap_state_machine.py:150-214` | which commitments, receipts, proofs and execution messages a swap has is decided by its state, and both recorded parties are who they claim to be, after every trigger |
| `SwapProtocol.SettlesKept` | `raidex/commitment_service/swap_state_machine.py:51-87` | every accepted receipt that is nobody's deposit is refunded once without fee, and the deposits are refunded as the way the swap ended demands, after every trigger |
| `SwapProtocol.AnnouncesKept` | `raidex/commitment_service/swap.py:113-128` | all messages of a swap's life, in order: the maker's proof, for the chosen taker the broadcast and its proof (at most once), and the one closing message; both proofs carry the swap's one secret and hash |
| `SwapProtocol.FirstComeFirstServedKept` | `raidex/commitment_service/swap_state_machine.py:186-214` | the pool holds every sender's first commitment submitted while the swap waited for a taker, and the chosen taker's commitment is that sender's first |
| `SwapProtocol.RecordsAreFinal` | `raidex/commitment_service/swap_state_machine.py:174-189` | over every further run the maker, the chosen taker, their receipts, proofs and the way the swap ended are never replaced, and nothing said is unsaid |
| `SwapProtocol.StateOnlyClimbs` | `raidex/commitment_service/swap_state_machine.py:24-92` | each change of state climbs in rank, so however many triggers arrive a swap changes state at most five times before it is processed, and it never rests in an end state without being finalized |
| `SwapProtocol.EndDecidesSettlement` | `raidex/commitment_service/swap_state_machine.py:25-72` | for a processed swap, each of the four ends decides for every receipt how often it was refunded with and without fee, and the exact list of messages sent; `traded` has an execution message of each recorded party |
| `SwapObjects.SwapCommitment.constructor` | `raidex/commitment_service/swap.py:42-60` | a new swap is in `initializing` with nothing recorded |
| `SwapObjects.SwapCommitment.QueueRefund` | `raidex/commitment_service/swap.py:91-92` | adds exactly the refund of this receipt to the service's refund queue |
| `SwapObjects.SwapCommitment.QueueSend` | `raidex/commitment_service/swap.py:88-89` | adds exactly this message to the end of the service's message queue |
| `SwapObjects.SwapCommitment.Do` | `raidex/commitment_service/swap_state_machine.py:150-214` | one callback changes the swap's fields, the queues and the table exactly as specified, and nothing else |
| `SwapObjects.SwapCommitment.Write` | `raidex/commitment_service/swap_state_machine.py:166-214` | the callbacks that record commitments, receipts, execution messages and timers write exactly their field; the pool keeps a sender's first commitment |
| `SwapObjects.SwapCommitment.Announce` | `raidex/commitment_service/swap.py:113-128` | the callbacks that send queue exactly their message to its addressee |
| `SwapObjects.SwapCommitment.Settle` | `raidex/commitment_service/swap.py:130-153` | the callbacks that settle queue exactly their refund; the maker's refund without fee also sends its cancellation proof, and the punishments do nothing |
| `SwapObjects.SwapCommitment.Finish` | `raidex/commitment_service/swap_state_machine.py:71-72` | finalizing an ended swap records how it ended and drops it from the table; in any other state it does nothing |
| `SwapObjects.SwapCommitment.Interpret` | `raidex/commitment_service/swap_state_machine.py:136-148` | the loop over the transition table, with the callbacks it runs in place, does what the table's interpretation on values does |
| `SwapObjects.SwapCommitment.Handle` | `raidex/commitment_service/swap.py:94-111` | a trigger moves the object, the refund queue, the message queue and the table of swaps to exactly the state `Fire` gives, and reports whether it was taken, refused or without transition |
| `SwapObjects.CommitmentService.constructor` | `raidex/commitment_service/tasks.py:143-146` | a new service has no swaps and nothing queued |
| `SwapObjects.CommitmentService.MakeSwap` | `raidex/commitment_service/swap.py:16-24` | for a free id, puts a fresh swap into the table under it and leaves all others; for an id in the table, makes none and changes nothing |
| `SwapObjects.CommitmentService.Deliver` | `raidex/commitment_service/swap.py:84-111` | a trigger for one swap is exactly the service step on values: that swap advances, its refunds and messages are queued, and it leaves the table when it ends |
| `SwapObjects.CommitmentService.ProcessCommitment` | `raidex/commitment_service/tasks.py:141-165` | a commitment goes to the running swap of its id as a taker's, or opens a swap as its maker's |
| `SwapObjects.CommitmentService.ProcessReceipt` | `raidex/commitment_service/tasks.py:94-117` | a transfer receipt reaches the running swap of its id; without one nothing changes |
| `SwapObjects.CommitmentService.ProcessExecution` | `raidex/commitment_service/tasks.py:168-185` | an execution message reaches the running swap of its id as that party's report; without one nothing changes (`ServiceRuns.TradeSettles` shows that two such messages settle a swap, `ServiceRuns.EndsOnlyBy` that they end it in no other way) |
| `SwapObjects.CommitmentService.ProcessCancellation` | `raidex/commitment_service/tasks.py:120-138` | a cancellation request acts on the running swap of its id as its timeout would |
| `SwapObjects.CommitmentService.TimerFires` | `raidex/commitment_service/swap_state_machine.py:150-154` | a timer acts on the swap object it was set for, whatever the table holds under its id by then |
| `SwapObjects.CommitmentService.StartRefund` | `raidex/commitment_service/tasks.py:47-55` | a refund leaves the queue and its transfer is under way, with the fee taken off exactly when it is claimed and the amount cut to whole units |
| `SwapObjects.CommitmentService.AnswerRefund` | `raidex/commitment_service/tasks.py:57-68` | a transfer answered with 200 is paid; any other answer puts the same refund back on the queue (`ServiceRuns.RefundsFollowAnswers` tells the queue, the transfers under way and the payments from the answers alone) |
| `Service.StepKeepsInv` | `raidex/commitment_service/tasks.py:94-185` | every event keeps the table equal to the running swaps, each under its own id and with exactly one timeout ahead of it, and every swap's invariant |
| `Service.RunKeepsInv` | `raidex/commitment_service/tasks.py:94-185` | so in every reachable state the table holds exactly the unprocessed swaps, at most one per id |
| `Service.FireFrame` | `raidex/commitment_service/swap.py:26-30` | a swap keeps its id, is dropped from the table exactly when it ends, and once processed rejects every trigger unchanged |
| `Service.TimeoutEnds` | `raidex/commitment_service/swap_state_machine.py:25-28` | a timeout ends a running swap whatever state it is in |
| `ServiceLaws.DepositsConserved` | `raidex/commitment_service/swap.py:140-153` | in every reachable state the receipts ever accepted are, as a multiset, the refunds (waiting, under way or paid) plus the deposits of running swaps plus those of failed ones |
| `ServiceLaws.BooksAlwaysAgree` | `raidex/commitment_service/tasks.py:94-117` | over every run the swaps' ledgers and the service agree: accepted receipts are those delivered to a running swap, refunds are exactly those queued, under way or paid, and messages exactly those in the outbox |
| `ServiceLaws.AccountBalances` | `raidex/commitment_service/swap_state_machine.py:51-87` | for one swap the accepted receipts are its refunds plus what it holds plus what it forfeited |
| `ServiceLaws.NeverInsolvent` | `raidex/commitment_service/tasks.py:47-68` | for any fee rate in [0,1] and any pattern of failed transfers, what was paid out, is still owed, is held and was forfeited never exceeds what came in |
| `ServiceLaws.RefundsNeverLost` | `raidex/commitment_service/tasks.py:57-68` | each refund a swap ever queued is exactly one of waiting, under way or paid, through any failures and requeues |
| `ServiceLaws.TimeoutClears` | `raidex/commitment_service/swap_state_machine.py:150-154` | a running swap has had its timeout armed once, it is still ahead, and when it comes the swap is processed and out of the table |
| `ServiceLaws.LateTimeoutIsHarmless` | `raidex/commitment_service/swap.py:84-95` | the late timeout of a finished swap changes nothing: not the table, not the queues, not a swap that reuses the id |
| `ServiceLaws.TimersEmptyTable` | `raidex/commitment_service/swap_state_machine.py:150-154` | in whatever order the timers run out, once each running swap's has, the table is empty |
| `ServiceRuns.TradeSettles` | `raidex/commitment_service/tasks.py:141-185` | from any state that meets the service's invariant, with the id free: a maker's commitment and receipt, a taker's commitment and receipt and the two parties' execution messages in either order, with any events of other ids and any refund transfers in between, trade the swap, with exactly two refunds with fee, exactly the four messages of a trade with one completion, and leave the id free again |
| `ServiceRuns.ScriptMoves` | `raidex/commitment_service/tasks.py:94-185` | each message of a trade takes the swap to its next stage; the last adds exactly the two refunds with fee to the queue and exactly the one completion to the outbox |
| `ServiceRuns.ElsewhereKeeps` | `raidex/commitment_service/tasks.py:94-185` | an event of another id, another swap's timer or a refund transfer leaves a swap, and whether its id is in use, as they were |
| `ServiceRuns.EndsOnlyBy` | `raidex/commitment_service/swap_state_machine.py:25-72` | what each event can do to a running swap: its timer or a cancellation request ends it, as uncommitted, untraded or failed by which deposits are in; otherwise it stays running, or an execution message of its id trades it |
| `ServiceRuns.FailsOnlyWhenStopped` | `raidex/commitment_service/tasks.py:120-138` | over every run, a swap that ended `failed` was running with both deposits when its own timer fired or a cancellation of its id was requested |
| `ServiceRuns.RefundsFollowAnswers` | `raidex/commitment_service/tasks.py:39-68` | over every run, for every refund, counted on the events: paid is the number of its transfers answered with success; started are those under way, answered with success or answered with failure; waiting and started make up those queued by swaps and those that failed |
| `ServiceRuns.PaidIsAnswered` | `raidex/commitment_service/tasks.py:57-68` | over every run, what is paid is exactly the multiset of refunds whose transfer was under way when it was answered with success |
| `ServiceRuns.PaidOnceAndForAll` | `raidex/commitment_service/tasks.py:57-68` | a refund never answered with success is not paid, none is answered with success more often than it was queued, and once each copy was, none waits or is under way, so no transfer of it starts again |
| `ServiceRuns.AnswerDecides` | `raidex/commitment_service/tasks.py:57-68` | after a failed answer the refund waits again and nothing is paid; after a successful one it is paid and does not wait |
| `ServiceRuns.PayoutTakesFee` | `raidex/commitment_service/tasks.py:47-55` | a refund without fee pays the whole receipt, one with fee the receipt times one minus the rate, rounded down to whole units |
| `OfferMachine.LookupIsNext` | `raidex/raidex_node/order/__init__.py:41-102` | looking a trigger up in the table, first for the state itself and then for its parent, gives the transition function stated state by state |
| `OfferMachine.StateTellsPath` | `raidex/raidex_node/order/__init__.py:63-95` | over every run, an offer is in a state if and only if the triggers that moved it form one of that state's paths: for a canceled or timed-out offer, an open path, its timeouts and, if canceled, the cancellation proof last |
| `OfferMachine.CompletedExactlyBy` | `raidex/raidex_node/order/__init__.py:63-95` | an offer is completed if and only if it was initiated, proved, matched (published before or not) and paid into twice, in this order |
| `AgreementLaws.RunKeeps` | `raidex/raidex_node/handle_state_change.py:86-128` | in every run of one maker, any number of takers, the service and the network, all nodes, packets and the service's swap fit together |
| `AgreementLaws.CompletedMeansTraded` | `raidex/raidex_node/handle_state_change.py:86-128` | settlement agreement: if any node's offer is completed, the swap ended `traded`, the node is the maker or the chosen taker, and each of the two received the other's payment first |
| `AgreementLaws.CanceledMeansNobodyTrades` | `raidex/commitment_service/swap.py:126-145` | exclusion: if an offer was canceled by a cancellation proof it is the maker's, the swap ended `untraded`, and no node is exchanging, waiting for its refund or completed |
| `AgreementLaws.TakerIsNotMaker` | `raidex/commitment_service/swap_state_machine.py:186-205` | the chosen taker is neither the maker nor the service, since each deposit is reported once |
| `AgreementLaws.PaidPartyTraded` | `raidex/commitment_service/swap.py:140-153` | with a taker chosen, a refund to one of the two parties means the swap was traded |
| `AgreementLaws.SentIsTrue` | `raidex/commitment_service/swap.py:113-145` | a commitment proof only goes to the maker whose deposit is in or to the chosen taker, a cancellation proof only to the maker of an untraded swap |
| `CompletedRun.EverybodyCompletes` | `raidex/raidex_node/handle_state_change.py:86-128` | for every maker and service a run exists in which the offer is published, taken, exchanged and refunded: both sides complete, the swap is traded and both deposits are refunded with fee |
| `AgreementMoves.MakerIsCalled` | `raidex/raidex_node/handle_state_change.py:108-115` | a listening maker called by a taker pays him and expects his payment, and no other node changes |
| `AgreementMoves.TakerPays` | `raidex/raidex_node/handle_state_change.py:86-99` | a taker whose commitment is proved pays the maker, sends him the offer and expects his payment, and no other node changes |
| `AgreementMoves.IsPaid` | `raidex/raidex_node/handle_state_change.py:118-128` | a node that gets the expected payment of the other side reports it to the service and waits for its refund |
| `LateCommitment.TakerIsDeceived` | `raidex/commitment_service/tasks.py:160-165` | a ten-step run, for any maker and service, in which a late commitment opens a second swap: the maker's offer is canceled and the taker is exchanging and has sent its payment |
| `LateCommitment.ExclusionNeedsPromptness` | `raidex/commitment_service/tasks.py:160-165` | exclusion holds in every run exactly when no commitment reaches the service after its offer's swap was processed |
| `OfferBook.AddingAgreesIff` | `raidex/raidex_node/offer_book.py:115-127` | adding an entry keeps the sorted index and the id index in agreement exactly when the id is unused or used at the same price |
| `OfferBook.StaleEntryStays` | `raidex/raidex_node/offer_book.py:115-127` | a concrete entry added again under its id at twice the price stays in the sorted index, and the indexes disagree |
| `OfferBook.RemovingAgrees` | `raidex/raidex_node/offer_book.py:129-137` | removing any id keeps both indexes in agreement |
| `OfferBook.RunHolds` | `raidex/raidex_node/offer_book.py:115-137` | over any run of additions under unused ids and removals, both indexes hold exactly the entries a plain set would hold |
| `OfferBook.ScanFindsSurvivors` | `raidex/raidex_node/offer_book.py:142-152` | after any such run the entries at a price are exactly the surviving ones at that price, by ascending id |
| `OfferBook.AtPriceStops` | `raidex/raidex_node/offer_book.py:146-150` | in a sorted index nothing at the price comes after the first higher price |
| `OfferBook.OfferView.constructor` | `raidex/raidex_node/offer_book.py:111-113` | a new side is empty and its indexes agree |
| `OfferBook.OfferView.AddOffer` | `raidex/raidex_node/offer_book.py:115-127` | writes both indexes as the run model says, and leaves them in agreement under exactly the condition above |
| `OfferBook.OfferView.RemoveOffer` | `raidex/raidex_node/offer_book.py:129-137` | takes the id out of both indexes; an unknown id changes nothing |
| `OfferBook.OfferView.GetOffersByPrice` | `raidex/raidex_node/offer_book.py:142-152` | the scan with its early exit returns every entry at the price, no other, by ascending id |
| `OfferBook.OfferBook.InsertOffer` | `raidex/raidex_node/offer_book.py:172-182` | the entry goes to the side of its type and the other side stays |
| `OfferBook.OfferBook.Contains` | `raidex/raidex_node/offer_book.py:190-191` | tells whether either side has the id |
| `OfferBook.OfferBook.RemoveOffer` | `raidex/raidex_node/offer_book.py:193-201` | takes a known id out of its side; an unknown one raises and changes nothing |
| `OfferBook.OfferBook.GetOffersByPrice` | `raidex/raidex_node/offer_book.py:203-205` | an order is shown the opposite side at its price |
| `Matching.MatchLimit` | `raidex/raidex_node/matching/matching_algorithm.py:3-16` | the in-place sort and the loop take what greedy choice from the largest offer down takes, with the same remainder |
| `Matching.GreedyFills` | `raidex/raidex_node/matching/matching_algorithm.py:8-16` | taken and remainder make up the amount, only listed offers are taken, and every offer not taken is larger than the remainder |
| `Matching.GreedyHalves` | `raidex/raidex_node/matching/matching_algorithm.py:8-16` | on a list sorted from the largest down, either all offers left are larger than the whole amount or more than half of it is filled |
| `Matching.MatchTakesAllOrHalf` | `raidex/raidex_node/matching/matching_algorithm.py:3-16` | for every order and book either every offer not taken at the price is larger than the order, or more than half of the order is filled |
| `Matching.MatchWithinTwice` | `raidex/raidex_node/matching/matching_algorithm.py:3-16` | no choice of matching offers that fits the order totals more than twice what was taken |
| `Matching.TwiceIsTight` | `raidex/raidex_node/matching/matching_algorithm.py:3-16` | the factor two cannot be improved: for every k an order of 2k is filled with k+1 where 2k was possible |
| `Sorting.SortHolds` | `raidex/raidex_node/matching/matching_algorithm.py:6` | sorting by a strict weak order gives an ordered permutation |
| `Sorting.SortStable` | `raidex/raidex_node/matching/matching_algorithm.py:6` | equal elements keep their order, as Python's sort promises |
| `NodeLaws.OrderConserved` | `raidex/raidex_node/architecture/data_manager.py:43-62` | an order of any amount is processed without raising exactly when no matching offer's timeout has run out, and then its offers' base amounts sum to its amount (to nothing, if negative), the book loses and the matches gain exactly the takes, and nothing left at the price fits the remainder |
| `NodeLaws.RaisingLeavesHalf` | `raidex/raidex_node/architecture/data_manager.py:48-57` | an order raises at its first take whose timeout has run out: the takes before it are done, and that offer is both in the book and among the node's own, so the registry is broken |
| `NodeLaws.RaisingIsReachable` | `raidex/utils/greenlet_helper.py:24-34` | from the empty node, an offer is published and its timeout runs out; an order for it, placed before that is handled, raises |
| `NodeLaws.MatchesHold` | `raidex/raidex_node/matching/matching_algorithm.py:3-16` | what an order finds in a sound book: distinct ids, opposite type, its price, filling amount minus remainder, nothing left that fits |
| `NodeLaws.TakeAllHolds` | `raidex/raidex_node/architecture/data_manager.py:48-57` | taking a list of offers goes through exactly when each id's timeout can be renewed, and then offers, matches, book and the order change by exactly that list |
| `NodeLaws.HandleKeeps` | `raidex/raidex_node/handle_state_change.py:17-128` | every handler that returns normally, and the listener for taken offers, on news that reuses no id, keeps: no id both in the book and among the node's offers, every match an own offer, every order's offers adding up to its amount; and offers only go on |
| `NodeLaws.RunKeeps` | `raidex/raidex_node/handle_state_change.py:17-128` | the same over every run of handlers and of taken-offer broadcasts between them |
| `NodeLaws.FillsOnlyGrow` | `raidex/raidex_node/order/limit_order.py:89-96` | over every run the traded amount of an order never falls and never exceeds the order's amount |
| `NodeLaws.PendingOnlyCompletes` | `raidex/raidex_node/order/__init__.py:63-95` | over every run a pending offer stays pending or completes, and a completed offer has its proof and its match |
| `NodeLaws.PaymentsCount` | `raidex/raidex_node/handle_state_change.py:118-128` | over every run of handlers, the payments an offer has had (one when it waits for its refund, two when completed) grow by exactly the inbound payments handled for it |
| `NodeLaws.ProofComesFirst` | `raidex/raidex_node/handle_state_change.py:86-99` | an offer that passes its proof over a run had its commitment proof handled in it, before any inbound payment |
| `NodeLaws.CompletedWasProvedAndPaid` | `raidex/raidex_node/order/__init__.py:63-95` | an offer new or without proof at the start of a run of handlers is completed at its end if and only if the run handled two inbound payments for it, its commitment proof having been handled before both |
| `NodeLaws.OrderSides` | `raidex/raidex_node/order/offer_manager.py:27-45` | every offer an order takes is of the opposite type with the node as taker, and the one it makes is of its own type with the node as maker |
| `NodeRuns.TradedExactly` | `raidex/raidex_node/order/limit_order.py:89-96` | over every run of a node from its start, an order has traded exactly the base amounts of those of its offers for which two inbound payments were handled, and nothing when none had two |
| `NodeRuns.TradedGrowsBy` | `raidex/raidex_node/order/limit_order.py:89-96` | from any sound state on, the traded amount grows by exactly the base amounts of the offers that reach their second inbound payment in the run |
| `NodeRuns.StepLists` | `raidex/raidex_node/handle_state_change.py:53-83` | after any news an entry is in the book exactly when this news published it from another node, or it was there and the news is not its timeout, not its taking, and no order that takes it |
| `NodeRuns.BookTellsNews` | `raidex/raidex_node/handle_state_change.py:53-83` | along every run an entry is in the book exactly when it was there before or was published, and since then its timeout was not handled, its taking was not broadcast and no order took it |
| `NodeRuns.TimedOutIsNotTaken` | `raidex/raidex_node/handle_state_change.py:53-61` | an offer whose timeout was handled and that was not published again is not in the book, and no order takes it |
| `NodeRuns.HoldsItsProof` | `raidex/raidex_node/handle_state_change.py:86-99` | over every run, an offer past its proof holds a commitment proof for its own id, and just that proof was handled in the run |
| `NodeRuns.MadeAtPrice` | `raidex/raidex_node/order/offer_manager.py:27-38` | what an order makes has its type, all of the remainder as base amount and, as quote amount, the remainder times the order's price rounded down to whole tokens |
| `NodeRuns.MakerNews` | `raidex/raidex_node/order/__init__.py:63-95` | the maker's side, each time with the whole new state of the node: the commitment proof sends the offer to all, its publication starts the listening for a taker, and the taker's call starts payment and the wait for his |
| `NodeRuns.TakerNews` | `raidex/raidex_node/handle_state_change.py:86-99` | the taker's side, with the whole new state: the commitment proof starts the exchange with the maker and sends him the offer |
| `NodeRuns.PaymentNews` | `raidex/raidex_node/order/events.py:39-53` | the first inbound payment is reported to the service and the second completes the offer, with the whole new state |
| `NodeRuns.CancelNews` | `raidex/raidex_node/handle_state_change.py:53-61` | the timeout of an open own offer asks the service to cancel it, and the cancellation proof cancels it, with the whole new state |
| `NodeRuns.NewsRaises` | `raidex/raidex_node/handle_state_change.py:53-128` | news raises exactly when the offer is not the node's own, has no match to be paid on or is in a state without transition for it, or when another node's offer comes with a timeout that ended already; the timeout of an offer not its own and a taken offer's broadcast never raise |
| `NodeRuns.StepTimes` | `raidex/utils/greenlet_helper.py:24-51` | after any news a greenlet is kept exactly for an offer this news published from another node or made the node's own, or one kept before whose timeout this news neither was nor made needless by completing it; and which of them have ended |
| `NodeRuns.BookStaysTimed` | `raidex/raidex_node/handle_state_change.py:74-83` | every entry of the book keeps a greenlet for its timeout |
| `NodeRuns.OrderCommits` | `raidex/raidex_node/architecture/data_manager.py:43-62` | an order commits to each of its offers, once each and in their order, and dispatches nothing else |
| `NodeRuns.OrderTakesEntries` | `raidex/raidex_node/order/offer_manager.py:40-45` | what an order took is the book's entry unchanged, as an unproved offer of the taker's, matched with the entry's initiator and the proof it came with |
| `NodeObjects.Offer.Trigger` | `raidex/raidex_node/order/__init__.py:17-24` | a trigger looked up in the nested table sets state, status and proof together, or raises and changes nothing |
| `NodeObjects.Match.Matched` | `raidex/raidex_node/matching/match.py:46-69` | a match moves its offer to exchanging and then sends its payment and expects the other's; without a transition it raises |
| `NodeObjects.LimitOrder.IsOpen` | `raidex/raidex_node/order/limit_order.py:64-69` | true exactly when some offer of the order is still open |
| `NodeObjects.LimitOrder.IsCompleted` | `raidex/raidex_node/order/limit_order.py:71-80` | true exactly when no offer is open any more and one completed |
| `NodeObjects.LimitOrder.IsCanceled` | `raidex/raidex_node/order/limit_order.py:82-87` | true exactly when some offer was canceled |
| `NodeObjects.LimitOrder.AmountTraded` | `raidex/raidex_node/order/limit_order.py:89-96` | the loop sums exactly the base amounts of the completed offers, which over a run are those with two inbound payments (`NodeRuns.TradedExactly`) |
| `NodeObjects.DataManager.constructor` | `raidex/raidex_node/architecture/data_manager.py:16-23` | a new manager has no offers, matches, orders or timeouts and an empty book, and meets the node's invariant |
| `NodeObjects.DataManager.HandleCommitmentProof` | `raidex/raidex_node/handle_state_change.py:86-99` | on the shared objects: the offer is proved, a stored match starts exchanging, and the proven offer is sent to the maker or to all; raises exactly when the step on values does, and then changes nothing |
| `NodeObjects.DataManager.HandleCancellationProof` | `raidex/raidex_node/handle_state_change.py:102-105` | cancels an open offer; raises exactly when there is none to cancel, changing nothing |
| `NodeObjects.DataManager.HandleOfferTimeout` | `raidex/raidex_node/handle_state_change.py:53-61` | an own open offer requests cancellation, another node's leaves the book, and the timeout is forgotten (`NodeRuns.BookTellsNews`, `NodeRuns.CancelNews`) |
| `NodeObjects.DataManager.HandleOfferPublished` | `raidex/raidex_node/handle_state_change.py:74-83` | an own offer becomes published; another's enters the book with a timeout, also under an id the book has, and the book's indexes stay in agreement exactly when the entry fits; with a timeout that ran out it raises after entering the book |
| `NodeObjects.DataManager.ProcessOfferTaken` | `raidex/raidex_node/listener_tasks.py:34-41` | the broadcast of a taken offer removes it from the book, if it is there |
| `NodeObjects.DataManager.HandleTakerCall` | `raidex/raidex_node/handle_state_change.py:108-115` | stores the maker's match and starts exchanging; when the offer cannot, only the match is stored |
| `NodeObjects.DataManager.HandleTransferReceived` | `raidex/raidex_node/handle_state_change.py:118-128` | passes an inbound payment to the offer of the match and forgets its timeout once completed |
| `NodeObjects.DataManager.CreateNewTimeout` | `raidex/utils/greenlet_helper.py:24-34` | refuses exactly when a greenlet is kept for the id and has ended |
| `NodeObjects.DataManager.CleanUpTimeout` | `raidex/utils/greenlet_helper.py:47-51` | forgets the greenlet of this id and no other |
| `NodeObjects.DataManager.CreateTakeOffer` | `raidex/raidex_node/order/offer_manager.py:40-45` | registers the taken offer with its timeout and its match, or, when its timeout has run out, registers it alone and raises |
| `NodeObjects.DataManager.MakeOffer` | `raidex/raidex_node/architecture/data_manager.py:59-62` | makes one offer of the remainder at the order's price and adds it to the order |
| `NodeObjects.DataManager.AddOffer` | `raidex/raidex_node/order/limit_order.py:50-52` | the offer joins the order, once, and is initiated; one that was initiated before raises after joining |
| `NodeObjects.DataManager.ProcessOrder` | `raidex/raidex_node/architecture/data_manager.py:43-62` | the loop over the matching entries, on objects that orders, matches and manager share, does exactly the order step on values, for any amount and for an order id used before, raises exactly when that does, and leaves exactly what the step had done by then |
| `NodeObjects.DataManager.HandleStateChange` | `raidex/raidex_node/handle_state_change.py:17-38` | dispatching any news changes the objects exactly as the step on values, raises exactly when that does, and on news that reuses no id keeps the node's invariant |
| `Market.OfferRoundTrip` | `raidex/raidex_node/transport/events.py:91-106` | an offer written as a message and read back is the same offer exactly when the market's tokens differ or it buys |
| `Market.MessageRoundTrip` | `raidex/message_broker/listeners.py:91-116` | with distinct tokens, a message that can be read is the message of the offer read |
| `Market.PaymentSides` | `raidex/raidex_node/matching/match.py:36-44` | the maker pays exactly the bid side of the message and the taker exactly the ask side |
| `Market.OrderPaysOneToken` | `raidex/raidex_node/matching/match.py:36-44` | every offer a buy order takes or makes pays quote tokens, every offer of a sell order base tokens |
| `RaidenListener.RaidenListener.AddEventFilter` | `raidex/raidex_node/trader/listener/raiden_listener.py:24-25` | appends the filter |
| `RaidenListener.RaidenListener.NewRaidenEvent` | `raidex/raidex_node/trader/listener/raiden_listener.py:13-22` | the loop over a copy, removing from the list itself, leaves exactly the filters that do not fit, in order, and yields one state change per filter that fits |
| `RaidenListener.RemoveAfter` | `raidex/raidex_node/trader/listener/raiden_listener.py:13-22` | removing the first filter equal to one that matched takes out that very occurrence |
| `RaidenListener.Partition` | `raidex/raidex_node/trader/listener/raiden_listener.py:13-22` | an event parts the filters into those left and those used, losing and doubling none |
| `RaidenListener.FiltersFireOnce` | `raidex/raidex_node/trader/listener/filter.py:17-37` | over every run of registrations and events, each registered filter is either still waiting or fired exactly once |
| `RaidenListener.FiresOnItsOwn` | `raidex/raidex_node/trader/listener/filter.py:17-54` | a transfer filter fires exactly on a payment with its own initiator and identifier, a channel filter on a channel event, and what is left are the filters that did not fire |
| `RaidenListener.SurvivorsInOrder` | `raidex/raidex_node/trader/listener/raiden_listener.py:13-22` | the filters left keep their order |
| `Trades.TimeBinHolds` | `raidex/raidex_node/offer_grouping.py:255-275` | a timestamp lies in its bin, and the start of a bin is in the same bin, without an offset |
| `Trades.OffsetStretches` | `raidex/raidex_node/offer_grouping.py:265-275` | a bin found with an offset is one interval long exactly when the offset is zero, and then it is the bin without offset |
| `Trades.TimeBinIs` | `raidex/raidex_node/offer_grouping.py:255-275` | the bin of a timestamp is the interval from q to q + 1 lengths exactly when the timestamp lies in it |
| `Trades.QuantaAre` | `raidex/raidex_node/offer_grouping.py:127-128` | a price has q quanta exactly when q <= price * scale < q + 1 |
| `Grouping.GroupTrades` | `raidex/raidex_node/offer_grouping.py:117-149` | with chunk size k >= 0, the groups of the longest prefix with at most k distinct keys, sorted; without one, or with a negative one, of all trades (`Grouping.SameGroup` says on the trades' own fields which of them share a group) |
| `Grouping.GroupsAreExact` | `raidex/raidex_node/offer_grouping.py:127-140` | one group for each key that occurs and no other, with the volume of exactly its trades |
| `Grouping.SameGroup` | `raidex/raidex_node/offer_grouping.py:127-138` | two trades share a group exactly when their types agree, one interval starting at a multiple of its length holds both timestamps, and their prices have the same whole number of quanta |
| `Grouping.GroupDescribes` | `raidex/raidex_node/offer_grouping.py:127-140` | each group starts at a multiple of the interval, and its amount is the volume of exactly the trades of its type within that interval at its number of quanta |
| `Grouping.ChunkIsExact` | `raidex/raidex_node/offer_grouping.py:117-149` | what is returned is ordered by time bin and then by price, is a permutation of the prefix's groups, and adds up to the prefix's volume; each amount is the volume of the trades of that type, interval and number of quanta |
| `Grouping.ChunkIsUnique` | `raidex/raidex_node/offer_grouping.py:142-145` | there is only one such prefix, so the result is determined |
| `Grouping.RollingBack` | `raidex/raidex_node/offer_grouping.py:142-145` | deleting the key of the trade that went over the limit restores the groups before it |
| `PriceBins.PriceBin.constructor` | `raidex/raidex_node/offer_grouping.py:168-175` | a new bin has its open price and no trades |
| `PriceBins.PriceBin.Add` | `raidex/raidex_node/offer_grouping.py:205-216` | updates extremes, amount and the closing prices of the latest timestamp |
| `PriceBins.FilledExtremes` | `raidex/raidex_node/offer_grouping.py:205-216` | after any trades, the lowest and highest price are prices of trades and bound them all |
| `PriceBins.FilledCloses` | `raidex/raidex_node/offer_grouping.py:205-216` | the closing prices are exactly those of the trades at the latest timestamp, in whatever order the trades came, and there is one |
| `PriceBins.LatestHolds` | `raidex/raidex_node/offer_grouping.py:212-216` | the latest timestamp is one of the trades' and none is later |
| `PriceBins.FilledHolds` | `raidex/raidex_node/offer_grouping.py:205-216` | the amount is the volume of the trades, and the closing prices lie between the extremes |
| `PriceBins.AverageIs` | `raidex/raidex_node/offer_grouping.py:181-185` | the average of the closing prices times their number is their sum |
| `PriceBins.ExtremesReported` | `raidex/raidex_node/offer_grouping.py:195-203` | with all trades at one quantum or more, a bin reports as minimum and maximum the prices of trades of its own that bound all others |
| `PriceBins.TickIs` | `raidex/raidex_node/offer_grouping.py:243-245` | a bin sees a trade's own time and base amount, and ten times its price rounded down |
| `PriceBins.CloseWithinExtremes` | `raidex/raidex_node/offer_grouping.py:181-203` | the close lies between the reported extremes exactly when the lowest price is not zero or the open price is not above the average of the closing prices |
| `PriceBins.ChartCloses` | `raidex/raidex_node/offer_grouping.py:187-203` | in a chart, the close of a bin with trades lies between its reported extremes exactly when every trade of the bin is priced at one quantum or more, or the close of the bin before is not above the average price of the bin's latest timestamp |
| `PriceBins.CloseBelowMinimum` | `raidex/raidex_node/offer_grouping.py:195-203` | a chart of two bins and two trades in which the second bin closes below the minimum it reports |
| `PriceBins.TimeBinGen` | `raidex/raidex_node/offer_grouping.py:278-291` | yields the starts of consecutive bins up to the bin of the timestamp |
| `PriceBins.GeneratorsAlign` | `raidex/raidex_node/offer_grouping.py:234-237` | the two generators run through the same aligned range one bin apart |
| `PriceBins.MakeBins` | `raidex/raidex_node/offer_grouping.py:239-248` | each bin opens at the close before it and holds the trades of its range, and the assertion on the number of bins cannot fail |
| `PriceBins.MakePriceBins` | `raidex/raidex_node/offer_grouping.py:229-252` | the chart is the aligned bins without the first, whose close is the first open |
| `PriceBins.BinsTile` | `raidex/raidex_node/offer_grouping.py:239-246` | every bin starts at its multiple of the interval, opens at the close before it and counts exactly its range; together they count the whole range |
| `PriceBins.RangesJoin` | `raidex/raidex_node/trades.py:58-76` | two adjoining ranges hold the volume of the joined range |
| `PriceBins.RangeMeans` | `raidex/raidex_node/trades.py:58-76` | a range keeps every copy of a trade from its start up to but without its end, and no other trade |
| `PriceBins.ChartCovers` | `raidex/raidex_node/offer_grouping.py:235-252` | the n bins of a chart are the n whole intervals before the one that holds the present |
| `PriceBins.OneBinEach` | `raidex/raidex_node/trades.py:58-76` | each trade of the whole range is in the range of exactly one bin |

## Left out

- Transport, HTTP, greenlets and logging: stand as events in any order; a listener that dies on an escaping exception only sees fewer events.
- Signatures, key files, encodings and envelopes of messages: opaque values from authentic senders.
- Receipts for an id without a running swap: the service drops them, so the books cover only receipts a swap accepted.
- Refund priority: every call uses the same one; the queue is a multiset and its order is not modelled.
- Refund transfers that never answer: stay under way in the model, as they do in the code.
- Callbacks without a commitment, receipt or proof: `SwapProtocol.ShapeKept` shows they are always there, and the model uses empty defaults.
- `NodeObjects.DataManager.HandleTakerCall`: says nothing of what a call for an offer the node does not have leaves behind, where the source stores a match without an offer before it raises.
- `NodeObjects.DataManager.HandleStateChange`: leaves to the single handlers what a raising one leaves behind, as the exception ends the node's consumer; the own id drawn for an order's make offer is fresh.
- `NodeObjects.DataManager.ProcessOrder`: starts from a sound registry, which every run keeps, and draws a fresh id for the offer it makes, as the source's 32 random bytes are.
- `NodeObjects.DataManager.CreateTakeOffer`: for an id that is not yet the node's own; its one caller passes entries of the book, which `NodeLaws.RunKeeps` shows never to be.
- `NodeObjects.DataManager.HandleTransferReceived`: does not model that the state machine forgets a completed offer, which has no transition left.
- `DataManager.cancel_order`: passes an offer where an id is expected and does not complete.
- Failed payments: the state change is not an offer state change, so its handler is never reached; the machine's `payment_failed` transition is modelled.
- Channel updates and token networks: only their place among the event filters is modelled.
- Offers with a base amount of zero: have no price, and the model has no such offers; reading one from a message fails.
- Floating point: prices and averages are exact, and quantising rounds down; a decimal's limited precision is not modelled.
- `Trades.TimeBinHolds`: without an offset, since no caller passes one; `Trades.OffsetStretches` says what an offset does.
- Grouping of offers for display, pending trades, and the market price.
- A node that takes its own offer: taker and maker are different nodes in the agreement model.
- Bots, mocks, the exchange-curve sketch and the web interface.
