# A verified model of the paper-order pipeline, the bar-revision backfill and the causal backtester

This project models the parts of the adaptive trading system where mistakes are expensive and states
what they promise as theorems over every input, every run or every reachable state.

**Order pipeline.** `OrderStates` is the fifteen-state transition table and the broker vocabulary,
`BrokerWords` says which texts mean which state and who may enter which state.
`OrderStore` holds the durable tables (intents, order rows, event log, fill ledger) with their unique
keys; each function is one transaction and `AuditRepository` is the object with the same contents.
`OrderProtocol` runs batches, trade-update handlers and reconciliation writes as interleaving threads
whose every transaction and broker call is a step of its own; threads may vanish at any step and the
broker and the feed may answer anything. `DurableStart` says what the row reads at a broker call,
`LedgerRepair` what one reconciliation stores and repairs, `ConcurrentFills` keeps the books of the
fill ledger over every run of handlers and reconcilers, `UniqueColumns` says that unique columns stay
unique, and `OrderProtocolCases` and `RepairCases` show where the guarantees end. `ProtocolRefinement`
proves that the manager run call by call is one run of this protocol.
`PaperLedger` and `FakeBroker` are the cash and position ledger with its order book, `OrderBook` what
that book says after any sequence of operations. `OrderManager`, `OrderExecution`, `FreshBatch` and
`ManagerObject` are the persist-first manager run call by call against that broker; `SubmissionPaths`
follows every way one submission can go, `SellGate` says when a batch's buys go out.
`ClientOrderId`, `Planner`, `PlannerGuarantees` and `PlanSizes` are the planner. `Rebalance` and
`RepeatedRebalance` compose all of them: safety of one rebalance, convergence of many.

**Bar-revision backfill.** `BarLog`, `BarProjection` and `BarBackfill` validate the append-only
revision log and its latest projection and rewrite both under fences. `DecimalText`, `HashValues` and
`HashNormalizer` are the frozen canonical serializer with its budgets; `BarHashes` builds the three
digests from it and says what equal digests mean. SHA-256 and JSON encoding are parameters.

**Backtester and history filters.** `WeightDrift`, `ShareAccounting`, `BuyAndHold`, `SessionLoop` and
`CausalBacktest` model weight drifting, the shares behind the weights, the passive run and the
rebalancing loop over arbitrary strategies; `BacktestAccounting` follows the money through that loop.
`CompletedHistory` and `GapCheck` are the two fast history filters against their simple readings.

`Decimal` and `float` amounts are exact reals; the planner's explicit rounding down to nine places is
kept. Clocks, randomness, digests, broker answers, feeds, strategies and the risk engine are parameters.
Real products and quotients are wrapped in named functions (`Worth`, `Times`, `Over`).

Some promises turn out to hold only under a condition; each has its counterexample and its exact
condition:

* The broker can be called after the row has left submission-started, when an update or the reconciler
  writes the order between its start and its call (`CallAfterReconciledFill`); it reads
  submission-started exactly when no such write was committed (`CalledWhileStartedExactlyWhen`), and
  always when no news of the order came in before (`UnannouncedCallsAreStarted`).
* A buy can overtake a sell that the intents table refuses and that therefore has no row, which counts
  as resolved: its decision, symbol and side are reserved under another client id
  (`BuyOvertakesReplannedSell`), or a dry run recorded its own id (`BuyOvertakesRehearsedSell`). The
  gate holds exactly when neither is the case (`SellGateHoldsExactlyWhen`).
* Update handlers that read the row before another commits record overlapping fills
  (`OvercountIsReachable`), and a reconciler that reads the ledger between a handler's commit and its
  fill repairs what is about to be recorded (`RepairOvercounts`); a row the reconciler does not move
  can also be left behind by its own repair (`ReconciliationRepairs`). The books of every run balance
  with drops, overlap and repairs as terms of their own (`ConcurrentFills.FillsAreConserved`,
  `LedgerStaysWithinStoredExactlyWhen`). With serialized deliveries, reports that never fall and
  repairs read while no fill of the order is under way and up to the stored quantity, the ledger stays
  within it (`SerializedLedgerNeverExceedsStored`, `QuietLedgerNeverExceedsStored`).
* The paper ledger applies a reported fill only if its event is written in lower case without outer
  blanks, while the manager reads it in any case (`UpperCaseFillIsNotApplied`);
  `LedgerMovesExactlyForFills` gives the condition.
* With a minimum order of zero, a wanted buy that finds the budget used up makes planning raise
  (`ZeroMinimumCanFail`); `PlanFailsExactlyWhen` gives the condition on the request.
* The canonical decimal text is a function of the number, but whether it is produced depends on how
  the number is written (`AcceptanceDependsOnForm`, `RefusedExactlyWhenTooLong`). Likewise order ids
  are cut, and may collide, from sequence 10^11 on (`LongSequencesCollide`, `IdsFit`).

## Model

| member | source | states |
|---|---|---|
| `OrderStates.BrokerStatusIsExternal` | src/adaptive_trader/execution.py:201-230 | no broker word, known or unknown, moves an order to a state only the local side may enter |
| `BrokerWords.NormalizedIsSpelled` | src/adaptive_trader/execution.py:201-202 | stripping and lower-casing recognizes a word exactly when the text spells it in any case between blanks |
| `BrokerWords.StateSpelled` | src/adaptive_trader/execution.py:201-230 | a text stands for a state if and only if it spells one of that state's words, in any case and between any blanks |
| `BrokerWords.TerminalWords` | src/adaptive_trader/execution.py:47-55 | exactly the words fill, filled, canceled, cancelled, rejected, expired and replaced end an order |
| `BrokerWords.UnknownWords` | src/adaptive_trader/execution.py:229-230 | reconciliation is required exactly for texts that spell no known word |
| `BrokerWords.WhoMayEnter` | src/adaptive_trader/execution.py:58-198 | for each open state, exactly the states from which it may be entered |
| `BrokerWords.WhoMayLeave` | src/adaptive_trader/execution.py:58-198 | for each terminal state, cancel-requested and reconciliation-required, exactly the states from which it may be entered |
| `OrderStates.StageNeverFalls` | src/adaptive_trader/execution.py:58-198 | along any path of the table the submission stage never falls, and the four early stages are strictly left behind |
| `OrderStates.OnceOnlyStates` | src/adaptive_trader/execution.py:58-198 | planned, reserved, started and unknown are each entered at most once on any path |
| `OrderStates.TerminalAbsorbs` | src/adaptive_trader/execution.py:182-198 | a terminal state is never left |
| `OrderStates.PartialFillNeverForgotten` | src/adaptive_trader/execution.py:58-198 | after a partial fill an open unfilled state is reached only by way of reconciliation |
| `OrderStates.AfterPartialFillIsReached` | src/adaptive_trader/execution.py:58-198 | each state allowed after a partial fill is reached by some path without reconciliation, so the previous row is exact |
| `OrderStore.ReserveIsInsertIfAbsent` | src/adaptive_trader/persistence.py:1227-1283 | a reservation succeeds exactly when neither client id nor decision/symbol/side is taken, fails without a trace and exactly when the order has a row, its key is held elsewhere or a dry run recorded its id, and starts the history planned, reserved |
| `OrderStore.ReservationBarsItsKind` | src/adaptive_trader/persistence.py:1227-1283 | a reservation bars another intent exactly when they share the client id, or decision, symbol and side |
| `OrderStore.HypotheticalKeeps` | src/adaptive_trader/persistence.py:1285-1317 | a dry run keeps the tables consistent, adds no order row, event or fill and takes no recorded intent away; what it adds has no row |
| `OrderStore.TransitionKeepsPaths` | src/adaptive_trader/persistence.py:1358-1445 | a table-respecting compare-and-set keeps log, rows and keys consistent and appends one state to one order's history, or changes nothing |
| `OrderStore.AuditRepository.ReserveOrderIntent` | src/adaptive_trader/persistence.py:1227-1283 | the tables after a reservation, and its answer |
| `OrderStore.AuditRepository.RecordHypotheticalIntents` | src/adaptive_trader/persistence.py:1285-1317 | the intents table after a dry run, and the ids it recorded |
| `OrderStore.AuditRepository.TransitionOrder` | src/adaptive_trader/persistence.py:1358-1445 | the tables after a guarded transition: duplicate event keys, wrong expected states and taken broker ids change nothing |
| `OrderStore.AuditRepository.AppendFill` | src/adaptive_trader/persistence.py:1447-1479 | the fill ledger after recording a fill once per fill key |
| `OrderWrites.WritesFit` | src/adaptive_trader/execution.py:569-673 | every write the manager, the update handler and the reconciler ask for uses an event key that belongs to its order and target state |
| `OrderWrites.KeysTellReportsApart` | src/adaptive_trader/execution.py:594-635 | two broker reports share an event key exactly when they agree in broker id and status, and for responses and reconciliations also in quantity and, for the latter, date |
| `LiveModels.SameDeliveryExactlyWhen` | src/adaptive_trader/live_models.py:383-398 | two deliveries count as one exactly when they share the event id, else execution id and event, else the content |
| `LiveModels.SameFillExactlyWhen` | src/adaptive_trader/persistence.py:1447-1460 | two updates record one fill exactly when they share the execution id, or have none and are the same delivery |
| `OrderProtocol.RunKeeps` | src/adaptive_trader/execution.py:537-720 | the protocol invariant holds in every state of every interleaving with crashes at any step |
| `UniqueColumns.RunKeepsUnique` | src/adaptive_trader/persistence.py:1358-1479 | in every run no two order rows share a broker id and no two fills a fill id |
| `OrderProtocol.SubmittedAtMostOnce` | src/adaptive_trader/execution.py:569-635 | in every run the broker's submit operation is invoked at most once per client order id |
| `OrderProtocol.CallsFollowDurableStart` | src/adaptive_trader/execution.py:604-613 | at every broker call the row exists and the durable history holds the start of a submission exactly once |
| `DurableStart.EveryCallIsMade` | src/adaptive_trader/execution.py:611-613 | every recorded broker call was made at some step of the run, on the durable state of that step |
| `DurableStart.CalledWhileStartedExactlyWhen` | src/adaptive_trader/execution.py:604-613 | at a broker call the row reads submission-started if and only if no update or reconciliation write of that order was committed before it |
| `DurableStart.UnannouncedCallsAreStarted` | src/adaptive_trader/execution.py:604-613 | if no trade update and no reconciliation of the order came in before the call, the row reads submission-started at the call |
| `DurableStart.RunKeepsOwn` | src/adaptive_trader/execution.py:569-635 | in every run at most one batch is in the middle of submitting an order, and only it and the broker news write that order |
| `OrderProtocol.HistoriesArePaths` | src/adaptive_trader/execution.py:537-567 | in every run each stored history is a path of the table from planned, reserved to the row's state |
| `OrderProtocol.OrderLifecycle` | src/adaptive_trader/execution.py:58-198 | in every run: no way out of a terminal state, no second entry of the early states, no forgotten partial fill |
| `OrderProtocol.LaterStatesExtend` | src/adaptive_trader/execution.py:537-567 | later states of a run only extend histories, keep intents and keep terminal states |
| `OrderProtocol.BuysWaitForSells` | src/adaptive_trader/execution.py:694-720 | a buy reaches the broker only after a non-blocking callback answer and with each sell of its batch terminal, reserved under another client id, or recorded by a dry run |
| `OrderProtocol.SellGateHoldsExactlyWhen` | src/adaptive_trader/execution.py:694-720 | provided client ids stand for one intent each, at every buy a sell of the batch is terminal if and only if nobody else holds its decision, symbol and side and its own id, if recorded, has a row |
| `OrderProtocolCases.FreshIntentReachesBroker` | src/adaptive_trader/execution.py:569-613 | undisturbed, an unreserved intent is reserved, started and submitted, with exactly that effect on tables and calls |
| `ProtocolRefinement.SubmissionIsRun` | src/adaptive_trader/execution.py:569-635 | a thread nobody disturbs, answered by the fake broker, submits an intent exactly as the manager does: same store, same broker call, next intent or the same failure |
| `ProtocolRefinement.ExecutionIsRun` | src/adaptive_trader/execution.py:694-720 | after any run, executing a batch call by call is a continuation of that run: same store, no other thread touched, broker calls for exactly the intents that get that far |
| `ProtocolRefinement.DeliveryIsRun` | src/adaptive_trader/execution.py:637-692 | an update handler nobody disturbs leaves the store the manager's handler leaves |
| `OrderProtocolCases.BuyOvertakesReplannedSell` | src/adaptive_trader/execution.py:700-720 | a run in which a buy reaches the broker while a sell of the same decision and symbol is in flight |
| `OrderProtocolCases.BuyOvertakesRehearsedSell` | src/adaptive_trader/persistence.py:1285-1317 | a run in which a buy reaches the broker past a sell that a dry run recorded under its own id |
| `OrderProtocolCases.CallAfterReconciledFill` | src/adaptive_trader/execution.py:585-613 | a run in which the broker is called for an order whose row already reads filled |
| `OrderProtocolCases.InterleavedUpdatesOvercount` | src/adaptive_trader/execution.py:637-692 | two handlers that read before either commits leave thirty recorded shares for twenty stored ones |
| `OrderProtocolCases.OvercountIsReachable` | src/adaptive_trader/execution.py:637-692 | from the empty system a run ends with recorded fills above the stored quantity |
| `ConcurrentFills.FillsAreConserved` | src/adaptive_trader/reconciliation.py:147-232 | in every run: recorded, pending and missed fills equal the stored quantity plus what was taken back, what overlapping handlers counted twice and what repairs added |
| `ConcurrentFills.LedgerStaysWithinStoredExactlyWhen` | src/adaptive_trader/reconciliation.py:147-232 | in every run recorded fills stay within the stored quantity if and only if drops, overlap and repairs do not exceed pending and missed fills |
| `ConcurrentFills.WasRead` | src/adaptive_trader/execution.py:651-673 | every handler about to commit read its row at some earlier step and carries the quantity stored then |
| `ConcurrentFills.SerializedDoNotOverlap` | src/adaptive_trader/execution.py:637-692 | if nothing writes an order between a handler's read and its commit, no fill is counted twice |
| `ConcurrentFills.NothingIsDropped` | src/adaptive_trader/execution.py:637-692 | if reported cumulative quantities never fall, nothing is taken back |
| `ConcurrentFills.SerializedLedgerNeverExceedsStored` | src/adaptive_trader/reconciliation.py:169-232 | with serialized deliveries, reports that never fall and repairs that fit, recorded and pending fills never exceed the stored quantity in any run, and the ledger equals it exactly when nothing is pending and repairs made good what was missed |
| `ConcurrentFills.QuietLedgerNeverExceedsStored` | src/adaptive_trader/reconciliation.py:169-232 | the same bound when the reconciler reads an order's ledger only while nobody is about to record a fill of it and repairs only up to the stored quantity |
| `RepairCases.RepairOvercounts` | src/adaptive_trader/reconciliation.py:169-232 | a run with serialized deliveries and reports that never fall in which a repair and a pending fill record the same ten shares |
| `LedgerRepair.ReconciliationIs` | src/adaptive_trader/reconciliation.py:83-232 | an undisturbed reconciliation of one order: its write if it advances the row, then its repair of the ledger, and nothing else |
| `LedgerRepair.RepairedExactlyWhen` | src/adaptive_trader/reconciliation.py:169-182 | a repair is made exactly when the ledger trails by more than the tolerance, the average price is known and the missing shares cost something |
| `LedgerRepair.ReconciliationRepairs` | src/adaptive_trader/reconciliation.py:113-232 | a repairable ledger ends at the broker's quantity and its money at that quantity times the average price; the row follows if the write took effect and keeps its quantity otherwise |
| `LedgerRepair.ReconciliationSettles` | src/adaptive_trader/reconciliation.py:147-232 | when the write took effect and the ledger did not exceed the broker, ledger and row end within the tolerance of each other, and equal after a repair |
| `PaperLedger.FillEffect` | src/adaptive_trader/broker.py:632-655 | an applied fill moves cash and one holding by its signed amounts, marks it at the fill price, touches nothing else and changes equity by the revaluation of the old holding |
| `PaperLedger.RefusedExactlyWhen` | src/adaptive_trader/broker.py:632-655 | exactly the fills that oversell or overspend are refused |
| `FakeBroker.OpEffect` | src/adaptive_trader/broker.py:595-748 | every submit, report or cancel applies exactly its fill to the ledger or leaves the ledger alone |
| `FakeBroker.LedgerIsConserved` | src/adaptive_trader/broker.py:595-748 | over any sequence of operations cash and holdings stay nonnegative and equal the start plus the signed applied fills |
| `FakeBroker.EquityMovesByRevaluation` | src/adaptive_trader/broker.py:632-655 | each operation changes equity by old quantity times fill price minus old mark, or not at all |
| `FakeBroker.FakePaperBroker.GetAccount` | src/adaptive_trader/broker.py:503-518 | reported equity is cash plus the marks of all positions |
| `FakeBroker.FakePaperBroker.ApplyFillToLedger` | src/adaptive_trader/broker.py:632-655 | the ledger after a fill, untouched after a refusal |
| `FakeBroker.FakePaperBroker.Submit` | src/adaptive_trader/broker.py:570-631 | the whole broker state and the outcome of a submission, repeated ids and timeouts included |
| `FakeBroker.FakePaperBroker.EmitUpdate` | src/adaptive_trader/broker.py:657-713 | the whole broker state and the outcome of a reported event, refusals included; what the book then says is `OrderBook` |
| `FakeBroker.FakePaperBroker.Cancel` | src/adaptive_trader/broker.py:719-748 | cancelling by broker id cancels the first order of the book that carries it, that one order only, and changes nothing if there is none |
| `OrderBook.QuantitiesAddUp` | src/adaptive_trader/broker.py:595-713 | over any sequence of operations an order's cumulative quantity is what it was booked with plus every quantity reported for it |
| `OrderBook.UpdateCarriesTotal` | src/adaptive_trader/broker.py:678-713 | the update of a report carries the booked order itself, with the total of all quantities so far, the reported event, price and ids |
| `OrderBook.SubmissionCarriesTotal` | src/adaptive_trader/broker.py:570-631 | the update of a submission carries the booked order with its total, and a fill price exactly when it filled |
| `OrderBook.BookMatchesLedgerExactlyWhen` | src/adaptive_trader/broker.py:632-713 | the shares the ledger applied for an order never exceed its cumulative quantity, and equal it if and only if every claimed quantity came with a priced fill the ledger took |
| `OrderBook.TermsAreKept` | src/adaptive_trader/broker.py:657-748 | orders stay in the book with their ids, symbol, side and requested amount through any operations |
| `OrderBook.LastReportStands` | src/adaptive_trader/broker.py:657-748 | an order is booked exactly when somebody gave it a status, and carries the last status and the last nonzero price given to it |
| `OrderBook.StatusesAreDated` | src/adaptive_trader/broker.py:657-748 | whoever gives a booked order a status dates it with the broker's clock, and nobody else does |
| `OrderBook.LedgerMovesExactlyForFills` | src/adaptive_trader/broker.py:693-698 | a report moves the ledger exactly when quantity and price are nonzero and its event, in lower case without outer blanks, means a fill to the manager |
| `OrderBook.UpperCaseFillIsNotApplied` | src/adaptive_trader/broker.py:693-698 | an upper-case fill that the manager reads as filled and the paper ledger does not apply |
| `OrderManager.ChangeRecordsItsIncrease` | src/adaptive_trader/execution.py:637-692 | a handled update records exactly the increase it made, and only a new, priced partial or full fill does |
| `OrderManager.ChangeRecordsItsPrice` | src/adaptive_trader/execution.py:675-691 | a recorded increase is worth the increase times the update's own fill price |
| `OrderManager.LedgerMoneyAddsUp` | src/adaptive_trader/execution.py:637-692 | over any history the money in the fill ledger is the sum of all recorded increases, each at its own price |
| `OrderManager.UpdateIsAnswered` | src/adaptive_trader/execution.py:637-673 | known deliveries and unknown orders are ignored, forbidden moves and foreign broker ids are errors, and exactly all other updates are stored with event state, quantity and broker id |
| `OrderManager.ColumnsAreLastGiven` | src/adaptive_trader/persistence.py:1358-1445 | after any changes each column of a row is the last value a change that took effect gave it, or what it was |
| `OrderManager.FillsAreConserved` | src/adaptive_trader/execution.py:637-692 | for every history of updates, crashes and other moves: recorded plus missed equals stored plus taken back |
| `OrderManager.NothingIsDropped` | src/adaptive_trader/execution.py:637-692 | if the reported quantities that take effect never fall, the stored quantity never does |
| `OrderManager.LedgerNeverExceedsStored` | src/adaptive_trader/execution.py:637-692 | with reports that take effect never falling, recorded fills never exceed the stored quantity, with equality exactly when nothing was missed |
| `OrderManager.ReplaysChangeNothing` | src/adaptive_trader/execution.py:637-650 | any sequence of already logged updates leaves the store as it is |
| `OrderManager.EventsAreKept` | src/adaptive_trader/persistence.py:1331-1342 | a logged event stays logged through any further history |
| `OrderManager.DuplicateDeliveriesAreAbsorbed` | src/adaptive_trader/live_models.py:383-398 | an update taken in once is recognised and ignored after any further history |
| `OrderExecution.OrderedKeeps` | src/adaptive_trader/execution.py:700-703 | splitting and sorting a batch neither loses, duplicates nor invents an intent |
| `SellGate.OrderedIsSorted` | src/adaptive_trader/execution.py:700-703 | each side goes out by sequence number, and in the given order among equal numbers |
| `OrderExecution.PlannedOrderIsKept` | src/adaptive_trader/execution.py:694-720 | a planned batch is executed in exactly its planned order |
| `OrderExecution.BrokerTouchesLedgerOnce` | src/adaptive_trader/broker.py:595-631 | a broker submission applies its fill once or not at all, refuses a short exactly when a new order sells more than is held, and leaves the ledger untouched on refusal |
| `OrderExecution.SubmissionTouchesLedgerOnce` | src/adaptive_trader/execution.py:569-635 | a submission applies its intent's fill once or not at all, and passes on a broker refusal only for a short or an unfunded fill |
| `OrderExecution.FundedSubmissionsAreNotRefused` | src/adaptive_trader/execution.py:694-720 | a funded run of submissions is never refused, keeps the rest funded and spends no more than its buys |
| `OrderExecution.FundedBatchIsSafe` | src/adaptive_trader/execution.py:694-720 | executing a funded planned batch against any store, book, callback and broker setting never meets a refusal and never goes negative |
| `FreshBatch.UnseenIntentFills` | src/adaptive_trader/execution.py:569-635 | an unseen fillable intent ends filled at the broker and in its row, with nothing else disturbed |
| `FreshBatch.PlannedBatchFillsCompletely` | src/adaptive_trader/execution.py:694-720 | an unseen funded batch fills completely and leaves exactly the ledger of all its fills |
| `FreshBatch.ExecutionLeavesAlone` | src/adaptive_trader/execution.py:694-720 | executing a batch leaves every other client id unseen and takes no decision/symbol/side but its own |
| `SubmissionPaths.AnsweredSubmission` | src/adaptive_trader/execution.py:569-635 | an answered submission of a free intent: the order in the book on the intent's own terms, ledger filled exactly if the broker fills, row at the broker's outcome, the history with one more entry and the fill recorded exactly if an update was pushed |
| `SubmissionPaths.AmbiguousSubmission` | src/adaptive_trader/execution.py:611-622 | a submission without an answer returns nothing, leaves the history planned, reserved, started, unknown, the order in the book and its fill in the ledger exactly if the broker fills |
| `SubmissionPaths.AmbiguousThenFound` | src/adaptive_trader/execution.py:569-583 | submitting an ambiguous intent again changes nothing and returns the order the broker had booked |
| `SubmissionPaths.NeverSentAgain` | src/adaptive_trader/execution.py:572-583 | an intent whose id or decision, symbol and side is recorded changes nothing and returns the broker's order, if any |
| `SubmissionPaths.RefusedSubmission` | src/adaptive_trader/broker.py:600-631 | a short or unfunded submission is passed on as refused, leaves the row started and the ledger alone, and is booked only when unfunded |
| `SubmissionPaths.RefusedOrAccepted` | src/adaptive_trader/broker.py:600-646 | the broker takes a new order exactly when it neither oversells nor, if filled at once, overspends |
| `SubmissionPaths.RecentOrderIsAdopted` | src/adaptive_trader/execution.py:585-602 | a broker order as recent as the intent is adopted without a call; exactly a replaced one is an invalid transition |
| `SubmissionPaths.OlderOrderIsFound` | src/adaptive_trader/execution.py:604-635 | an older broker order is found only by submitting, which returns it without counting a submission; exactly a replaced one is an invalid transition |
| `SellGate.SubmissionsLeaveOthers` | src/adaptive_trader/execution.py:569-635 | submissions touch no row and no booked order of any other client id |
| `SellGate.ExecuteCases` | src/adaptive_trader/execution.py:694-720 | the three ways a batch ends: a failed sell, a closed gate after exactly the sells, or sells, callback and buys |
| `SellGate.BoughtOnlyPastTheGate` | src/adaptive_trader/execution.py:706-720 | for every world, batch with distinct ids and callback: a buy is in the book anew only if the callback did not block and every sell of the batch has no row or a terminal one in the final store |
| `SellGate.ResultsTellTheGate` | src/adaptive_trader/execution.py:716-720 | an executed batch returns one result per intent past an open gate, and exactly one per sell, with no buy sent, before a closed one |
| `ManagerObject.Manager.MoveTo` | src/adaptive_trader/execution.py:537-567 | the tables after reading, validating and compare-and-setting one order |
| `ManagerObject.Manager.ProcessTradeUpdate` | src/adaptive_trader/execution.py:637-692 | the tables after one delivered update |
| `ManagerObject.Manager.Submit` | src/adaptive_trader/execution.py:569-635 | tables, broker and result after one submission, every early exit and the ambiguous answer included; where each path leads is `SubmissionPaths` |
| `ManagerObject.Manager.SubmitEach` | src/adaptive_trader/execution.py:704-705 | tables, broker and results after submitting a list in order, stopping at the first failure |
| `ManagerObject.Manager.FindUnresolved` | src/adaptive_trader/execution.py:710-714 | finds whether some sell has a row that is not terminal |
| `ManagerObject.Manager.ExecuteBatch` | src/adaptive_trader/execution.py:694-720 | tables, broker and results of a whole batch: sells, callback, check of the sells, buys; when the buys go out is `SellGate` |
| `ClientOrderId.FullIdLength` | src/adaptive_trader/execution.py:233-252 | exact length of an id before cutting |
| `ClientOrderId.SymbolInId` | src/adaptive_trader/execution.py:243 | an id keeps the capitals and digits of a symbol, in order, the first ten of them, or says ASSET if there are none |
| `ClientOrderId.IdsFit` | src/adaptive_trader/execution.py:233-252 | ids never exceed 48 characters, are uncut below 10^11, and uncut exactly when symbol and sequence leave room |
| `ClientOrderId.DecodeInvertsEncode` | src/adaptive_trader/execution.py:233-252 | an uncut id decodes to date, digest, filtered symbol, side and sequence |
| `ClientOrderId.IdsAreDistinct` | src/adaptive_trader/execution.py:233-252 | different sequence numbers below 10^11 give different ids |
| `ClientOrderId.LongSequencesCollide` | src/adaptive_trader/execution.py:233-252 | from 10^11 on, numbers that differ in a twelfth digit share an id |
| `Planner.PlanOrders` | src/adaptive_trader/execution.py:311-448 | the planner with its loops computes the specified plan or error |
| `Planner.SurveySymbols` | src/adaptive_trader/execution.py:357-390 | the pass over symbols collects the specified deltas and skips |
| `Planner.BuildIntents` | src/adaptive_trader/execution.py:403-448 | the pass over deltas collects the specified intents, skips and remaining budget |
| `Planner.SizeDelta` | src/adaptive_trader/execution.py:405-427 | the size of one intent, or the reason there is none, for any progress with that count and budget |
| `PlannerGuarantees.PlanKeepsItsPromises` | src/adaptive_trader/execution.py:311-448 | every plan: sells first, numbered 0..n-1, at most the order cap, one intent per symbol, each within its gap, cap and holding, buys together within cash after buffer and open buys |
| `PlannerGuarantees.PlanFailsExactlyWhen` | src/adaptive_trader/execution.py:323-426 | planning fails exactly on bad weights, positions or prices, and, with a zero minimum, on a wanted buy within the order cap whose amount is zero or whose predecessors use up the budget |
| `PlanSizes.RequestIsRefusedExactlyWhen` | src/adaptive_trader/execution.py:323-350 | a request is refused for a negative weight, then for a symbol outside the universe, then for its first negative or unexpected position, and for nothing else |
| `PlannerGuarantees.ZeroMinimumCanFail` | src/adaptive_trader/execution.py:409-414 | a request with good inputs that planning nevertheless rejects when the minimum is zero |
| `PlannerGuarantees.EverySymbolIsAccountedFor` | src/adaptive_trader/execution.py:357-448 | every symbol of the universe ends in exactly one intent or one skip, unless it is on target |
| `PlanSizes.WeightsAreScaled` | src/adaptive_trader/execution.py:332-343 | final weights keep symbols and proportions and total the smaller of the gross and one minus the buffer |
| `PlanSizes.TargetIsShareOfEquity` | src/adaptive_trader/execution.py:332-377 | a target is the weight times the equity, scaled down by buffer and gross exactly when the gross is too high |
| `PlanSizes.ReservedAddsUp` | src/adaptive_trader/execution.py:390-397 | cash is set aside for exactly the open buys, each by its own amount |
| `PlanSizes.PlanIsExact` | src/adaptive_trader/execution.py:357-448 | in every plan a buy is the least of gap, cap and cash left after the buys before it, a sell within a billionth share of the least of gap, cap and holding, every skip reason is true of its symbol, and each side is in symbol order |
| `PlanSizes.SilentExactlyWhen` | src/adaptive_trader/execution.py:359-383 | a symbol is passed over in silence exactly when it is well quoted, on target, and some minimum is set |
| `Rebalance.SnapshotPlanIsFunded` | src/adaptive_trader/execution.py:392-426 | a plan made from the broker's own snapshot is funded by that ledger, and leaves buffer and open buys if it buys at all |
| `Rebalance.RebalanceIsSafe` | src/adaptive_trader/execution.py:694-720 | planning from the snapshot and executing never meets a short or margin refusal and keeps cash at buffer plus open buys, counting no sale proceeds |
| `Rebalance.RoundApproachesTargets` | src/adaptive_trader/execution.py:357-448 | one round at fixed prices keeps equity and targets, pushes no symbol past its target and takes exactly the traded amount off the total distance |
| `Rebalance.RoundMakesProgress` | src/adaptive_trader/execution.py:403-426 | a round that issues an intent takes at least a unit off the total distance |
| `Rebalance.RebalancingConverges` | src/adaptive_trader/execution.py:311-448 | an empty plan is reached after at most as many rounds as units fit into the initial distance |
| `Rebalance.RebalancingTerminates` | src/adaptive_trader/execution.py:311-448 | from every steady start finitely many rounds reach an empty plan |
| `Rebalance.PlanIdsAreDistinct` | src/adaptive_trader/execution.py:427-437 | client order ids within a plan are pairwise distinct |
| `Rebalance.ExecutionPerformsTheRound` | src/adaptive_trader/broker.py:595-655 | executing a plan under unseen names on the auto-filling broker fills everything and performs exactly one round |
| `RepeatedRebalance.RoundLeavesSet` | src/adaptive_trader/execution.py:694-720 | executing a plan under a round's own decision and names fills it, performs the round on the ledger and leaves all later rounds fresh |
| `RepeatedRebalance.ExecutedRoundsConverge` | src/adaptive_trader/execution.py:311-448 | executed rounds, each under its own decision and names, reach an empty plan within the number of units in the initial distance |
| `RepeatedRebalance.ExecutedRebalancingTerminates` | src/adaptive_trader/execution.py:694-720 | for every steady ledger there is a number of rounds within which planning from the snapshot and executing reaches an empty plan |
| `RepeatedRebalance.StandardNamings` | src/adaptive_trader/execution.py:233-252 | deterministic client ids under different decisions and digests give every round names of its own |
| `DecimalText.CountIsExact` | migrations/versions/20260905_0003_bar_revision_history.py:246-262 | the precomputed character count is exactly the length of the fixed-point text |
| `DecimalText.TextRoundTrip` | migrations/versions/20260905_0003_bar_revision_history.py:246-267 | canonical text parses back to the same number |
| `DecimalText.CanonicalFormIsUnique` | migrations/versions/20260905_0003_bar_revision_history.py:246-267 | two decimals without trailing zeros that denote the same number are the same decimal |
| `DecimalText.TextEqualIffNumberEqual` | migrations/versions/20260905_0003_bar_revision_history.py:246-267 | two decimals render equally if and only if they are numerically equal |
| `DecimalText.RefusedExactlyWhenTooLong` | migrations/versions/20260905_0003_bar_revision_history.py:253-263 | rendering is refused exactly for nonzero decimals whose fixed-point text exceeds 1024 characters |
| `DecimalText.AcceptanceDependsOnForm` | migrations/versions/20260905_0003_bar_revision_history.py:253-263 | the number one is refused when written with 1023 or more trailing zeros |
| `DecimalText.StrippedKeepsValue` | migrations/versions/20260905_0003_bar_revision_history.py:367-371 | popping trailing zeros keeps the value and ends without one |
| `DecimalText.RequireDecimal` | migrations/versions/20260905_0003_bar_revision_history.py:361-376 | the popping loop accepts as specified |
| `DecimalText.AcceptsExactlyWhen` | migrations/versions/20260905_0003_bar_revision_history.py:361-376 | a decimal is accepted if and only if its least number of places is within the scale and the scaled value is below 10^38, however it is written |
| `DecimalText.LeastPlacesExist` | migrations/versions/20260905_0003_bar_revision_history.py:361-376 | every finite decimal has a least number of places, so the previous row covers all of them |
| `HashValues.FrozenHashBudget.ConsumeNode` | migrations/versions/20260905_0003_bar_revision_history.py:118-123 | counts a node and accepts exactly within depth and node limits |
| `HashValues.FrozenHashBudget.ConsumeText` | migrations/versions/20260905_0003_bar_revision_history.py:125-128 | counts text bytes and accepts exactly within the limit |
| `HashValues.FrozenHashBudget.ConsumeString` | migrations/versions/20260905_0003_bar_revision_history.py:233-243 | accepts exactly strings within the string limit that fit the remaining budget |
| `HashValues.CostIgnoresOrder` | migrations/versions/20260905_0003_bar_revision_history.py:208-229 | total cost of entries does not depend on their order |
| `HashValues.Utf8LengthIsLeast` | migrations/versions/20260905_0003_bar_revision_history.py:233-243 | a code point counts as the fewest bytes whose UTF-8 payload carries it |
| `HashValues.IntLimits` | migrations/versions/20260905_0003_bar_revision_history.py:32-33 | integers are limited to signed 64 bits |
| `HashNormalizer.Normalize` | migrations/versions/20260905_0003_bar_revision_history.py:155-230 | succeeds exactly when depth, nodes, text, strings, integers and decimals are within limits; the budget then grew by exactly the value's totals and the result is its rendering |
| `HashNormalizer.NormalizeTuple` | migrations/versions/20260905_0003_bar_revision_history.py:190-206 | the same for tuples, item by item one level down |
| `HashNormalizer.NormalizeDict` | migrations/versions/20260905_0003_bar_revision_history.py:207-229 | the same for mappings: node, then all keys, then values in key order |
| `HashNormalizer.CanonIsEquivalent` | migrations/versions/20260905_0003_bar_revision_history.py:207-229 | listing every mapping in key order changes neither cost nor result |
| `HashNormalizer.CanonForgetsOrder` | migrations/versions/20260905_0003_bar_revision_history.py:207-229 | permuting a mapping's entries gives the same key-ordered value |
| `HashNormalizer.InsertionOrderIsIrrelevant` | migrations/versions/20260905_0003_bar_revision_history.py:155-230 | values that differ only in insertion order succeed together and normalize equally |
| `BarLog.PrepareUpdates` | migrations/versions/20260905_0003_bar_revision_history.py:497-571 | the scan with its carried state accepts exactly the chained row sequences and returns their updates |
| `BarLog.ScanDecidesLog` | migrations/versions/20260905_0003_bar_revision_history.py:497-571 | scanning in identity and revision order accepts exactly the logs that are well-formed as unordered sets |
| `BarLog.RevisionsAreGapless` | migrations/versions/20260905_0003_bar_revision_history.py:520-541 | in an accepted log each bar's revisions are exactly 1..n, each recorded once |
| `BarProjection.ValidateLatest` | migrations/versions/20260905_0003_bar_revision_history.py:574-599 | the check with its dictionaries accepts exactly distinct, matching and complete latest rows |
| `BarProjection.CheckDecidesProjection` | migrations/versions/20260905_0003_bar_revision_history.py:574-599 | for a well-formed log the check accepts exactly the one-to-one projections onto terminal revisions |
| `BarBackfill.BarTables.RewriteEvents` | migrations/versions/20260905_0003_bar_revision_history.py:661-680 | rewriting accepted events loses no fence and rewrites each event once |
| `BarBackfill.BarTables.RewriteLatest` | migrations/versions/20260905_0003_bar_revision_history.py:681-703 | rewriting checked latest rows loses no fence and changes only their content hash |
| `BarBackfill.BarTables.Backfill` | migrations/versions/20260905_0003_bar_revision_history.py:639-703 | accepts exactly the acceptable tables, writes nothing on refusal, never loses a fence, and on acceptance rehashes every event and gives each latest row its terminal event's new hash |
| `BarBackfill.ProjectionSurvives` | migrations/versions/20260905_0003_bar_revision_history.py:681-703 | after an accepted backfill the latest rows are again one to one with the rewritten terminal events |
| `BarBackfill.EveryBarIsProjected` | migrations/versions/20260905_0003_bar_revision_history.py:574-599 | acceptable tables have a latest row for exactly the bars of the identity table |
| `BarBackfill.ChangedRowsAreNotHit` | migrations/versions/20260905_0003_bar_revision_history.py:661-703 | an update leaves alone every event already rewritten or changed since it was read, and every latest row changed since it was checked |
| `BarBackfill.SecondPassIsRefused` | migrations/versions/20260905_0003_bar_revision_history.py:639-703 | the rewritten log would pass again if and only if no content hash changed |
| `BarHashes.PayloadHashIsExact` | migrations/versions/20260905_0003_bar_revision_history.py:458-494 | without collisions, payloads of a bar hash equally if and only if their numbers and labels agree, whatever form the decimals have |
| `BarHashes.IdentityHashIsExact` | migrations/versions/20260905_0003_bar_revision_history.py:458-470 | without collisions identity hashes agree exactly when provider, feed, adjustment, symbol, timeframe and start do |
| `BarHashes.IdentityIdNamesInstrument` | migrations/versions/20260905_0003_bar_revision_history.py:458-475 | hashed revisions carry the same identity id and identity hash exactly when they are of the same instrument and start |
| `BarHashes.PayloadHashNamesBar` | migrations/versions/20260905_0003_bar_revision_history.py:458-494 | payload hashes of any two revisions agree exactly when instrument, start, end, numbers and labels do |
| `BarHashes.EventIdNamesRevision` | migrations/versions/20260905_0003_bar_revision_history.py:520-541 | event ids agree exactly when bar, revision number and payload hash do |
| `BarHashes.CorrectionsChangeTheBar` | migrations/versions/20260905_0003_bar_revision_history.py:527-541 | in an accepted log every correction differs from the revision before it in some number or label |
| `BarHashes.ContentHashBinds` | migrations/versions/20260905_0003_bar_revision_history.py:542-556 | without collisions, equal content hashes mean equal id, payload hash and provenance columns |
| `BarHashes.ContentHashNamesRevision` | migrations/versions/20260905_0003_bar_revision_history.py:542-556 | new content hashes agree if and only if id, columns and payload agree |
| `WeightDrift.DriftWeights` | src/adaptive_trader/backtest.py:405-433 | the loop and comprehensions compute the specified drift or error |
| `WeightDrift.DivisorIsOneExactlyWhen` | src/adaptive_trader/backtest.py:426-432 | the normalizing divisor is one if and only if weights and cash totalled one |
| `WeightDrift.DriftKeepsHoldings` | src/adaptive_trader/backtest.py:405-433 | a balanced book stays balanced, no guard fires and each holding moves with its own price |
| `WeightDrift.DriftFailsExactlyWhen` | src/adaptive_trader/backtest.py:405-433 | drifting fails exactly when more than a trillionth is held without a return, growth is used up, or holdings and cash together are |
| `WeightDrift.DriftSharesOut` | src/adaptive_trader/backtest.py:420-433 | in any book without shorts each new weight is what its holding has become over what everything has become, a missing return counting as none |
| `ShareAccounting.MoveKeepsShares` | src/adaptive_trader/backtest.py:405-433 | carrying a book through one price move keeps every share and the money not invested |
| `ShareAccounting.EquityIsShares` | src/adaptive_trader/backtest.py:405-433 | a book that holds bought shares is worth its capital times the cash kept plus each weight times price over base price |
| `BuyAndHold.Run` | src/adaptive_trader/backtest.py:737-813 | the passive loop yields one row per session with the specified books and the drawdown from the running peak, or fails exactly when some session cannot be valued; what the books hold is `SharesAreKept` and `PurchaseCosts` |
| `BuyAndHold.SharesAreKept` | src/adaptive_trader/backtest.py:754-789 | at every open and close the book holds the shares and cash of the first purchase |
| `BuyAndHold.DriftingIsShareAccounting` | src/adaptive_trader/backtest.py:754-813 | at every close ten thousand times the equity is the capital times ten thousand less both rates of the amount bought, times the cash share plus each target weight times close over first open; weights and cash total one |
| `BuyAndHold.PurchaseTurnover` | src/adaptive_trader/risk.py:710-730 | buying an affordable target from cash turns over exactly what is bought |
| `BuyAndHold.TurnoverOfLongTarget` | src/adaptive_trader/risk.py:710-730 | any target without shorts turns over what it buys, or half of that and all cash if it buys more than there is |
| `BuyAndHold.PurchaseCosts` | src/adaptive_trader/backtest.py:743-766 | after an affordable purchase ten thousand times the equity is the capital times ten thousand less the amount bought times both rates |
| `BuyAndHold.IntradayIsReported` | src/adaptive_trader/backtest.py:781-789 | the reported intraday move is the return from open to close |
| `BuyAndHold.OvernightIsReported` | src/adaptive_trader/backtest.py:762-780 | the reported overnight move is the return from the previous close to the open, and none in the first session |
| `SessionLoop.Run` | src/adaptive_trader/backtest.py:474-684 | the session loop computes the specified state, the first failing half ending it |
| `SessionLoop.SameRuns` | src/adaptive_trader/backtest.py:474-684 | engines with equal mornings through a session and equal evenings before it cannot be told apart by then |
| `CausalBacktest.RunDynamic` | src/adaptive_trader/backtest.py:474-684 | the rebalancing run reaches the specified state or failure; what its decisions cost and hold is `BacktestAccounting` |
| `CausalBacktest.ReturnsOfPrefix` | src/adaptive_trader/backtest.py:506-526 | returns cut at a session are the returns of the prices cut there |
| `CausalBacktest.ReturnsAreCloseToClose` | src/adaptive_trader/backtest.py:1018 | a return leads from the previous close to this one, and is there exactly when both closes are |
| `CausalBacktest.NoLookAhead` | src/adaptive_trader/backtest.py:474-684 | data agreeing on closes before a session and opens through it give equal rows and equity before it and equal decisions and receipts in it, for arbitrary strategies |
| `CausalBacktest.TruncationChangesNothing` | src/adaptive_trader/backtest.py:474-684 | cutting the data after a session changes nothing up to that session |
| `CausalBacktest.PrudentRunCompletes` | src/adaptive_trader/backtest.py:474-684 | with quoted prices and prudent risk decisions no guard fires, weights and cash total one and equity stays positive |
| `BacktestAccounting.SessionOpens` | src/adaptive_trader/backtest.py:484-500 | with quoted prices and prudent decisions, every session opens with the shares the previous one closed with and equity follows the prices |
| `BacktestAccounting.SessionDecides` | src/adaptive_trader/backtest.py:498-613 | exactly in a due session one receipt is added and its weights, cash and latch are taken over for the equity at the open less its turnover times both rates; otherwise the book at the open is kept |
| `BacktestAccounting.SessionCloses` | src/adaptive_trader/backtest.py:644-684 | from decision to close the shares are kept, and the row tells equity, weights, return and fall from the peak |
| `BacktestAccounting.SharesUntilNext` | src/adaptive_trader/backtest.py:474-684 | as long as nothing is due, every close holds the shares decided on and adds no receipt |
| `BacktestAccounting.EquityUntilNext` | src/adaptive_trader/backtest.py:474-684 | until the next rebalance, equity is the last receipt's equity at the open less both rates of its turnover, times its cash plus each of its weights times close over execution price |
| `BacktestAccounting.ReceiptsTellDecisions` | src/adaptive_trader/backtest.py:501-613 | however a run goes, its receipts are those of the due sessions, in order, each following from the closes before its session, its standing and its own parts |
| `BacktestAccounting.RowsTellTheRun` | src/adaptive_trader/backtest.py:644-684 | however a run goes, it has one row per session, the peak is the highest equity so far, and each row tells the fall from it |
| `BacktestAccounting.RefusedExactlyWhenCostsConsume` | src/adaptive_trader/backtest.py:559-569 | a rebalance is refused exactly when it is due and its turnover times both rates reaches ten thousand |
| `BacktestAccounting.RunStaysSolvent` | src/adaptive_trader/backtest.py:474-684 | whatever the risk engine returns, a run that goes on holds nothing short and keeps positive equity |
| `CompletedHistory.Build` | src/adaptive_trader/decision_engine.py:301-382 | accepts exactly the acceptable bars, returns their table, counts the rest, and its cutoff is the last session of the table, before the current one |
| `CompletedHistory.TableShape` | src/adaptive_trader/decision_engine.py:349-360 | the table holds ascending sessions and each cell is the close of the bar for it |
| `CompletedHistory.OnlyRelevantBarsMatter` | src/adaptive_trader/decision_engine.py:301-382 | permuting bars or adding current, later or out-of-universe ones changes neither verdict nor prices |
| `GapCheck.LongGaps` | src/adaptive_trader/data.py:266-278 | reports exactly the required series with six consecutive missing prices, with the true longest run |
| `GapCheck.LongestIsLongestRun` | src/adaptive_trader/data.py:269-271 | the grouped maximum is the length of the longest run of missing prices |
| `GapCheck.RejectsExactlyLongGaps` | src/adaptive_trader/data.py:266-278 | the longest run reaches n if and only if some n consecutive prices are missing |

## Left out

- `Decimal` context precision and float rounding: amounts are exact reals.
- Status text beyond ASCII, and calendar years before 1000: stripping and lower-casing cover ASCII, dates have four digits.
- SHA-256, JSON encoding and UUIDs: a fingerprint stands for its own input, broker ids are injective in client ids, digests of the backfill are parameters with refusals, collision freedom is a stated premise where it is used.
- Column checks of `_validate_canonical_v1_row` (patterns, ranges, timeframes): a parameter of the payload digest, since they would only add one-branch members; `_require_decimal`, which they call, is modelled.
- Container cycles and the output size limit of the canonical serializer: values are finite trees, and the size limit is part of the digest parameter.
- DecimalText.AcceptsExactlyWhen: covers scales up to 38, which includes the scales 0 and 18 in use; beyond 38 the source's own digit limit makes the law false.
- BarBackfill.BarTables.Backfill: takes the tables' primary and foreign keys and the freshly added empty column as given; locks, grants and DDL around it are not modelled.
- `inject_order`, `set_position`, `set_cash` and the threaded emission of the fake broker: broker calls are atomic steps and updates are pushed before the call returns.
- The reconciler's discrepancy reports and its position and cash checks; its order transition and its repair of the fill ledger take part in the protocol, one order at a time, and repair ids are kept apart from the broker's execution ids by their prefix.
- Order enablement, halts and everything else the repository class stores.
- `AlpacaPaperBroker`, stream supervision, downloads and provider normalization.
- Receipt and metadata formatting, daily-return columns and benchmarks of the backtester; the receipt keeps its inputs and results.
- Strategies, regime detector, allocators and the risk engine: arbitrary functions of what they receive; `PrudentRunCompletes` states what it needs of the risk engine.
- BuyAndHold.DriftingIsShareAccounting: needs nonnegative targets totalling at most one and quoted closes; for other totals `DivisorIsOneExactlyWhen` says that normalization changes the book.
- `config.py`, the other migrations, `app.py`, `cli.py` and the scripts.
