# A verified model of the clearing house

A central counterparty (CCP) clearing house: members trade, the CCP steps between the two parties of every trade, nets
what everyone owes once per cycle, settles the nets, and absorbs the losses of a defaulting member through a
waterfall. Services share one database with an append-only double-entry ledger and talk through a transactional outbox
and a Kafka log.

`dafny verify dfyconfig.toml` checks everything.

## How it is built

The model has three layers.

- **Specification.** Tables are values; each operation is a function on them. `Ledger` holds accounts, journals,
  entries, the balance view and the commit trigger; `Registry` and `Model` the other rows; `Trading` novation;
  `Netting` and `NettingCycle` one netting cycle; `Settlement` the status machine; `ProRata` and `Waterfall` the
  default waterfall; `Collateral` the collateral and margin postings; `Reconciliation` the reconciler; `Outbox` the
  publishers. `Sums` and `Options` are stock. `WaterfallTerms` and `CycleTerms` say what waterfall and cycle compute
  without naming any of these functions: from accounts, limits, legs and prices alone.
- **System.** `System` puts them together as one state machine. A step is one committed transaction, one publisher
  action, one external answer in an on-chain run, or a crash; a step whose transaction aborts changes nothing. Any
  message of the log can be delivered to its consumer at any time, any number of times, in any order: this covers
  redelivery, reordering and several consumers. It allows more than the consumers do, which is right for what always
  holds; what can still be reached is stated over sessions, in which a consumer reads on from its committed position.
  `Preservation` shows that every step keeps the invariant; `Theorems` draws the conclusions for every reachable state
  and every run; `Effects` says on the tables alone what the main steps do; `Defaults` treats the defaults of the
  seeded system, `Liveness` shows exactly what can still be reached, and `Witnesses` builds one run that ends in a
  false log row and one that loses an event.
- **Services.** `Store.Database` is the database as an object with one field per table. `TradeIngestion`,
  `NettingEngine`, `SettlementEngine`, `LiquidationEngine`, `CollateralManager`, `OutboxPublisher`, `Consumer`,
  `SettlementConsumer` and `Chain` run the operations on it statement by statement, with the source's loops,
  savepoints and rollbacks, and each is proved to do exactly what its specification, and so the state machine, says.

Amounts are exact reals; rounding is a separate layer (`ProRata.RoundingBound`, `Rounding`). There is one currency.
Transactions are serialisable. Ids are row numbers, and an outbox row's number is its event_id. `now()` is constant
within a transaction, so the two legs of a trade carry one novation time. Three state components are not tables:
`runs`, the workers' memory of on-chain runs under way; `effects`, which records committed effects in order; and a
cycle's `netted`, which remembers which legs it flipped.

## Where the code is not what one would expect

- The repository's README (line 219) describes six waterfall steps; the code has five, and so has the model.
- CCP_EQUITY is seeded by credits, so its view balance is negative in every later state
  (`Defaults.EquityStaysNegative`), step 3 adds to the loss whenever it runs, and the CCP then collects more than the
  loss absorbed (`Defaults.NegativeEquityRaisesLoss`, `Defaults.FirstDefault`). `Waterfall.ClosedFormExact` says
  exactly when the closed form survives this, `Defaults.DefaultRecovers` exactly when the recovery equals the loss
  absorbed.
- The seed script makes the CCP house an active member with a zero credit limit. It therefore counts as a survivor of
  every other member's default; it is charged only if it has a positive limit (`Waterfall.IsLiable`).
- The docstring of `_create_waterfall_journal` says that it debits the member and credits the CCP; the code credits
  the member and debits the CCP, and so does the model.
- Step 1 measures IM and VM of all pools and posts everything to MARGIN_IM AVAILABLE: no claim is made that margin
  accounts stay non-negative.
- Locking margin debits AVAILABLE and credits LOCKED, the opposite of a collateral posting
  (`Trading.NovationMargins`); the sum of the two pools is preserved.
- Nothing forbids a negative credit limit; `ProRata.ProRataExact` gives the exact condition for the pro-rata law and
  `ProRata.NegativeLimitOverpays` a case that breaks it.
- With neither account found, a recovery journal has no entries and the trigger cannot object
  (`Waterfall.PhantomRecovery`); with one found, the transaction aborts (`Waterfall.WaterfallCommit`).
- Rejecting a trade overwrites any status, so that trade/leg consistency depends on deduplication
  (`Trading.ProcessConsistent`).
- A zero initial margin rate rejects every trade of the instrument: the entries table refuses a zero amount
  (`Trading.NovatedExactly`).
- No service writes the chain of an instruction, so that on-chain instructions made by netting fail unless someone
  sets it; the model has a separate step for that, `RouteToChain`.
- The on-chain exception handler always logs `approved` as from-status (`Settlement.LoggedFromExactly`,
  `Witnesses.HandlerMisreports`): the chain of logged from-statuses is claimed except for that.
- The settlement consumer logs every exception and commits the offset all the same. If anything raises before the
  handling of a message commits (a lost connection, say), and the message is the last copy of a published row, its
  event is lost and its instruction stays pending for good (`SettlementConsumer.LossExactly`,
  `SettlementConsumer.LostForever`; `Witnesses.EventIsLost` is such a run). `Liveness.ProcessableExactly` says exactly
  which events can still be processed.
- An on-chain run whose worker dies, or whose final transfer is refused because its amount is zero, leaves its
  instruction approved, signed or broadcast for ever: the event is spent and nothing looks at the instruction again
  (`Theorems.StrandedForever`).
- A callback whose connection raises after its commit has ingested the message and sends it to the dead letter queue
  as well (`Consumer.BothExactly`); a failed dead letter insert is swallowed and loses the message
  (`Consumer.LostExactly`).
- Finalizing confirms without a journal when an account is missing (`SettlementEngine.RunOutcome`); `Theorems.Paid`
  names the case with both accounts.
- An unregistered chain raises instead of failing the instruction, and the mark is rolled back with it
  (`SettlementConsumer.SpendsExactly`); the instruction stays pending until somebody routes it again
  (`SettlementConsumer.UnregisteredForever`).
- Rounded quotas can leave a default `partially_resolved` although the layers cover it, or overcollect
  (`Rounding.RoundingUnresolves`).
- The balance view joins journals on their status and then ignores it, so it counts unconfirmed entries
  (`Reconciliation.DifferenceIsUnconfirmed`).

## Model

| member | source | states |
|---|---|---|
| `Theorems.CcpEndsFlat` | services/netting-engine/src/netting_engine/netting.py:232-257 | The CCP ends flat. After any run of the system as its services drive it in which every instruction's event has been processed, with SETTLEMENT AVAILABLE accounts for the parties of the cash instructions, settlement has left the CCP's SETTLEMENT AVAILABLE balance unchanged and has moved every other member's by exactly minus the sum of its cash net amounts over all cycles. |
| `Liveness.CanEndFlat` | services/settlement-engine/src/settlement_engine/consumer.py:67-96 | After any session of the services, with settlement accounts for the parties of the cash instructions: the services can still reach a state with every instruction's event processed, in which the CCP is flat, if and only if the settlement consumer has lost no event. |
| `Liveness.CanDeliverAll` | services/settlement-engine/src/settlement_engine/consumer.py:67-96 | From any state of a session, the publishers (with any positive batch size) and the settlement consumer can between them process exactly the events that are still processable, all of them together, changing no trade, cycle, account or instruction terms. |
| `Liveness.ProcessableExactly` | services/settlement-engine/src/settlement_engine/consumer.py:67-96 | The services can still process an instruction's event, in whatever way they go on, if and only if it is processed already, or its instruction is not waiting for a chain without adapter and its row is unpublished or a copy lies at or above the committed position. |
| `Liveness.CanPublishAll` | services/outbox-publisher/src/outbox_publisher/publisher.py:125-143 | From every state, whatever batches are open, publisher steps with any given positive batch size publish every row and put a new copy of each row that was not published into the log. |
| `SettlementConsumer.ConsumeLoop.HandleOne` | services/settlement-engine/src/settlement_engine/consumer.py:67-96 | One pass of the loop: handle, log what was raised, commit the offset all the same, with a death possible before and after the handling's commit. |
| `SettlementConsumer.ConsumeLoop.Run` | services/settlement-engine/src/settlement_engine/consumer.py:53-98 | One process of the loop, up to its death, does exactly the specified passes to the database and the committed position. |
| `SettlementConsumer.LossExactly` | services/settlement-engine/src/settlement_engine/consumer.py:93-96 | A pass loses an event exactly when it commits the last copy of a published row unprocessed: something raised before the handling committed, or the handling raised for want of an adapter. |
| `SettlementConsumer.LostForever` | services/settlement-engine/src/settlement_engine/consumer.py:93-96 | A lost event stays lost, whatever the services and everyone else do from then on. |
| `SettlementConsumer.SpendsExactly` | services/settlement-engine/src/settlement_engine/settler.py:215-224 | The first delivery of an event spends it if and only if its instruction is not pending, on chain, and routed to a chain without adapter; otherwise the handling raises and changes nothing. |
| `SettlementConsumer.PositionExactly` | services/settlement-engine/src/settlement_engine/consumer.py:67-96 | A pass raises the committed position by one if there is a message and the process does not die, whether or not anything raised. |
| `SettlementConsumer.PassSettles` | services/settlement-engine/src/settlement_engine/consumer.py:77-96 | What a pass does to the database: a settlement if the handling ran to its end, even if the process died before the offset commit, and nothing otherwise. |
| `SettlementConsumer.Advances` | services/settlement-engine/src/settlement_engine/consumer.py:67-96 | n handled messages raise the position by exactly n; each instruction among them has its event spent or waits for a chain without adapter. |
| `SettlementConsumer.UnregisteredForever` | shared/src/ccp_shared/chain/registry.py:39-44 | Such an instruction stays pending in every run in which nobody routes it again. |
| `SettlementConsumer.SessionIsRun` | services/settlement-engine/src/settlement_engine/consumer.py:67-96 | A session of the loop is a run of the system, so that everything shown of runs and reachable states holds of it. |
| `Theorems.HouseFlatWhenSettled` | services/settlement-engine/src/settlement_engine/settler.py:149-179 | The same for cash and on-chain settlement together: the CCP's settlement balance is unchanged as soon as, instrument by instrument, either all or none of the instructions that move money have settled. |
| `Theorems.LedgerAlwaysSound` | migrations/versions/014_balance_validation_triggers.py:22-43 | In every reachable state every journal balances, all balances sum to zero, no free collateral and no default fund is overdrawn, reconciliation passes, and the grouped view equals the replay on every account. |
| `Theorems.RunGrows` | migrations/versions/004_create_accounts_and_ledger.py:34-67 | The ledger, the status log, the message log and the processed marks are append-only over any run. |
| `Theorems.SettledExactlyOnce` | services/settlement-engine/src/settlement_engine/settler.py:24-77 | Over all runs with redelivery, crashes and external failures, an instruction's log is a path through the transition table ending at its status, and exactly one SETTLEMENT journal exists for it if it was paid (confirmed, both SETTLEMENT AVAILABLE accounts there, positive amount), none otherwise. |
| `Theorems.LoggedEdges` | services/settlement-engine/src/settlement_engine/settler.py:24-32 | Every row of the status log is about an instruction and names one of the nine status changes of the table. |
| `Theorems.TerminalForever` | services/settlement-engine/src/settlement_engine/settler.py:24-32 | Confirmed, failed and cancelled are absorbing: no run changes such an instruction, adds to its log or posts a transfer for it. |
| `Theorems.NeverRevisited` | services/settlement-engine/src/settlement_engine/settler.py:102-116 | The same for every instruction past `pending` that no worker runs: nothing ever comes back to it. |
| `Theorems.StrandedForever` | services/settlement-engine/src/settlement_engine/settler.py:223-284 | An on-chain run ends without a decision exactly when its worker dies or the entries table refuses a zero amount; the instruction then stays approved, signed or broadcast, without a transfer, in every later state. |
| `Theorems.OneEventPerInstruction` | services/netting-engine/src/netting_engine/netting.py:420-432 | Every instruction has exactly one event row, and is pending exactly as long as that event is not processed. |
| `Theorems.ConfirmedHistory` | services/settlement-engine/src/settlement_engine/settler.py:24-32 | A confirmed instruction was approved, signed, broadcast and confirmed, once each and in this order, each logged from the one before. |
| `Theorems.CashDecidedOnDelivery` | services/settlement-engine/src/settlement_engine/settler.py:128-188 | The first committed delivery of a cash instruction's event finds it pending, confirms it if payer and payee have a SETTLEMENT AVAILABLE account and fails it otherwise, and spends the event. Confirming posts one journal for a positive amount, takes the amount from the payer's account, brings it to the payee's, and moves no other account of any kind or pool. |
| `Theorems.ChainDecidedOnDelivery` | services/settlement-engine/src/settlement_engine/settler.py:211-235 | The first delivery of any other instruction's event, completely: failed without a chain, rolled back with the mark for a chain without adapter, approved with its on-chain run under way otherwise; logged, the event spent, no money moved. |
| `Theorems.TradeLegs` | services/trade-ingestion/src/trade_ingestion/novation.py:107-140 | In every reachable state a novated trade has exactly one BUY and one SELL leg of its quantity, price and parties; a submitted or rejected trade has none. |
| `Effects.SubmissionExactly` | services/api-gateway/src/api_gateway/main.py:84-101 | A submission is accepted exactly when both parties are members and the instrument is listed; it adds the trade as submitted and one unpublished event with the same data, and changes nothing else. |
| `Effects.SubmissionReachesLegs` | services/trade-ingestion/src/trade_ingestion/novation.py:107-140 | End to end, over any run after it: an accepted submission keeps its number and terms; once novated, the submitted buyer holds its one BUY leg and the submitted seller its one SELL leg, in the submitted instrument, quantity and price; otherwise it has no leg. |
| `Effects.TermsStay` | services/api-gateway/src/api_gateway/main.py:172-209 | No run changes the terms of a trade. |
| `Effects.IngestionExactly` | services/trade-ingestion/src/trade_ingestion/novation.py:34-49 | The first delivery of a submitted trade, completely: novated or rejected by the listed checks; two legs, two margin journals of quantity x price x rate that move the LOCKED and AVAILABLE initial margin of the two parties and no other account; the event marked; nothing else changed. |
| `Effects.CycleExactly` | services/netting-engine/src/netting_engine/netting.py:353-448 | A netting cycle, completely: the cycle with its obligations; for each a pending instruction over the absolute net amount and quantity, in which the member that owes pays the CCP; an unpublished event for each; exactly the open legs up to the cut-off turned to netted; nothing else changed. |
| `CycleTerms.ObligationsExactly` | services/netting-engine/src/netting_engine/netting.py:176-182 | An obligation is in the cycle exactly if it says what the member's open legs up to the cut-off net to in the instrument, that is not zero, its amount is that times the latest price (0 for an unlisted instrument or without a price), and its type is the instrument's (cash if unlisted). |
| `CycleTerms.OneObligationEach` | services/netting-engine/src/netting_engine/netting.py:60-103 | No member has two obligations in one instrument. |
| `Effects.PriceIsLastQuote` | services/netting-engine/src/netting_engine/netting.py:170-178 | The price that a cycle finds is the last one quoted in the run, whatever happened in between. |
| `Theorems.NettingConservedOverRuns` | services/netting-engine/src/netting_engine/netting.py:119-130 | For any interleaving of novations and cycles with any cut-offs: netted by all cycles + still open = ever novated, per member and instrument; a leg is netted by exactly one cycle when its status says so and by none otherwise; every cycle's amounts cancel per instrument. |
| `Theorems.AtMostOnceEffect` | shared/src/ccp_shared/idempotency.py:29-44 | Each (service, event) has its effect committed at most once, only for an outbox row addressed to that service; no two publishers hold a row; a published row is in the log; copies of a row are at most 1 + its aborted batches. |
| `Theorems.TradeDecidedOnce` | services/trade-ingestion/src/trade_ingestion/consumer.py:44-49 | A submitted trade's event has been processed exactly when the trade has left `submitted`. |
| `Theorems.RedeliveryIgnored` | services/trade-ingestion/src/trade_ingestion/consumer.py:45-47 | Once an event is marked, delivering any copy of it later, after any run, changes nothing. |
| `Defaults.DefaultRecovers` | services/liquidation-engine/src/liquidation_engine/waterfall.py:47-117 | In any reachable state, with equity and limits of any sign, a default on an onboarded system commits; its loss has the closed form exactly under the condition of `Waterfall.ClosedFormAt` on layers, limits and exposure; the CCP's settlement balance rises by the loss absorbed plus the amount by which equity is negative if step 3 ran, and (for a CCP that is not liable) by exactly the loss absorbed if and only if the exposure is not negative and step 3 did not run or found no negative equity. |
| `Effects.DefaultExactly` | services/liquidation-engine/src/liquidation_engine/waterfall.py:47-117 | A default is committed exactly when the member exists and its journals balance: the member and nobody else is marked as defaulted, the event records exposure, rows, loss left and status, the journals are confirmed waterfall journals about it, and nothing else changes; otherwise nothing does. |
| `Defaults.EquityStaysNegative` | scripts/seed-members.py:228-248 | In every state of every run of a seeded system whose margin transfers spare CCP_EQUITY, the equity balance is at most minus the contributions. |
| `Defaults.RunSpares` | services/collateral-manager/src/collateral_manager/operations.py:203-223 | Over any run, only a margin transfer into it can raise an equity or default fund balance, and only that or a default can change one. |
| `Defaults.FirstDefault` | services/liquidation-engine/src/liquidation_engine/waterfall.py:195-220 | On a seeded system before any default, with its contributors active: the negative equity cancels the seeded funds, so that the five layers cover only the margin and a tenth of the limits; and step 3, which runs exactly when the exposure exceeds margin and own fund, applies minus the contributions. |
| `Defaults.SeededEquityIsNegative` | scripts/seed-members.py:228-248 | The seed script credits CCP_EQUITY, so that a seeded CCP has minus all effective contributions as its equity balance, and each member its own contributions as its fund. |
| `Defaults.NegativeEquityRaisesLoss` | services/liquidation-engine/src/liquidation_engine/waterfall.py:195-220 | On a seeded system, after any such run, whenever a default reaches step 3 its row applies the negative equity balance, which raises the loss by at least all contributions, and the CCP collects exactly that much more than the loss absorbed. |
| `Preservation.NextKeeps` | migrations/versions/014_balance_validation_triggers.py:39-45 | Every step of every service keeps the whole invariant: ledger soundness, trade/leg consistency, netting conservation, settlement histories, flatness, deduplication. |
| `Preservation.InitialInvariant` | scripts/seed-members.py:200-249 | The freshly seeded system satisfies the invariant. |
| `Ledger.PostMoves` | migrations/versions/015_derived_balance_views.py:16-34 | A journal moves each balance of the view by the net of its lines on that account and no other. |
| `Ledger.TriggerExact` | migrations/versions/014_balance_validation_triggers.py:22-43 | The deferred trigger, which looks only at the journals of the inserted rows, accepts a transaction exactly when all journals balance afterwards. |
| `Ledger.PostBalances` | migrations/versions/004_create_accounts_and_ledger.py:56-67 | A journal of insertable lines keeps the constraints, and keeps the books balanced exactly when its own lines balance. |
| `Ledger.ViewPartitionsEntries` | migrations/versions/015_derived_balance_views.py:23-34 | Summing the grouped view over all accounts is summing all entries. |
| `Ledger.BalancesSumToZero` | migrations/versions/015_derived_balance_views.py:23-34 | If every journal balances, all balances of the view sum to zero. |
| `Ledger.BalanceSplitsByKind` | migrations/versions/015_derived_balance_views.py:23-34 | A balance is the sum of the parts that the seven kinds of journal account for, so that what settlement moved is part of the balance that collateral and the waterfall use. |
| `Ledger.PostMovesKind` | migrations/versions/015_derived_balance_views.py:23-34 | A journal moves the part of a balance that belongs to its own kind of journal and no other part. |
| `Reconciliation.RunReconciliation` | services/reconciliation-engine/src/reconciliation_engine/reconciler.py:97-155 | The loop checks each account with a confirmed entry once, reports expected, actual and difference for each, counts the differing ones, and passes exactly when there is none and both global checks hold. |
| `Reconciliation.ViewAsMap` | services/reconciliation-engine/src/reconciliation_engine/reconciler.py:111-117 | The dictionary of actual balances holds exactly the view. |
| `Reconciliation.DifferenceIsUnconfirmed` | services/reconciliation-engine/src/reconciliation_engine/reconciler.py:100-126 | The reported difference of an account is minus the net of its unconfirmed entries: the view counts them, the replay does not. |
| `Reconciliation.IntegrityImpliesGlobal` | services/reconciliation-engine/src/reconciliation_engine/reconciler.py:44-79 | Per-journal integrity implies global balance, by regrouping the entries. |
| `Reconciliation.PassExactly` | services/reconciliation-engine/src/reconciliation_engine/reconciler.py:142-146 | Reconciliation passes exactly when every confirmed journal balances and the unconfirmed entries cancel on every account that has a confirmed entry. |
| `Reconciliation.ResultExactly` | services/reconciliation-engine/src/reconciliation_engine/reconciler.py:119-140 | What a row of the report says, entry by entry: `expected` counts the entries of confirmed journals, `actual` all of them, the difference is minus the net of the others, and the row is fine exactly when that is zero. |
| `Reconciliation.ReportExactly` | services/reconciliation-engine/src/reconciliation_engine/reconciler.py:100-146 | The report covers each account with an entry of a confirmed journal once, and passes exactly when every row is fine and every confirmed journal balances. |
| `Reconciliation.SoundLedgerReconciles` | services/reconciliation-engine/src/reconciliation_engine/reconciler.py:100-146 | With only confirmed, balanced journals reconciliation passes and view and replay agree everywhere. |
| `Reconciliation.PendingEntriesUnseen` | services/reconciliation-engine/src/reconciliation_engine/reconciler.py:104-107 | A pass does not mean agreement: an account with pending entries only is never checked. |
| `ProRata.ProRataExact` | services/liquidation-engine/src/liquidation_engine/waterfall.py:286-303 | The pro-rata loop absorbs min(loss, rate x total) if and only if no base is negative, nobody can pay, or every cap binds. |
| `ProRata.ProRataIdentity` | services/liquidation-engine/src/liquidation_engine/waterfall.py:244-260 | With no negative base the survivors absorb min(loss, rate x total), for any number of them. |
| `ProRata.EqualRatio` | services/liquidation-engine/src/liquidation_engine/waterfall.py:252-254 | All survivors pay the same fraction of their base. |
| `ProRata.NegativeLimitOverpays` | services/liquidation-engine/src/liquidation_engine/waterfall.py:277-303 | A negative credit limit makes the others pay twice a loss of 5. |
| `ProRata.RoundingBound` | services/liquidation-engine/src/liquidation_engine/waterfall.py:252-260 | With n quotas each rounded by at most eps, the total moves by at most n x eps, and nobody pays above the cap, since the cap follows the rounding. |
| `Rounding.FinalLossBound` | services/liquidation-engine/src/liquidation_engine/waterfall.py:99-108 | The whole waterfall: with m and n survivors in steps 4 and 5 and each quota rounded by at most eps, the final loss is within (m + n) x eps of the exact one, even if rounding decides whether step 5 runs. |
| `Rounding.StatusUnmoved` | services/liquidation-engine/src/liquidation_engine/waterfall.py:110 | Rounding leaves the status unchanged when the first three layers cover the exposure or the exact loss exceeds (m + n) x eps. |
| `Rounding.RoundingUnresolves` | services/liquidation-engine/src/liquidation_engine/waterfall.py:110 | Otherwise it can change it: three equal funds cover a loss of 1 exactly, but quotas rounded to three digits leave 0.001 or overcollect 0.002. |
| `WaterfallTerms.RowsExactly` | services/liquidation-engine/src/liquidation_engine/waterfall.py:78-108 | The waterfall row by row, read off accounts and members, for any signs: the five rows measure the defaulter's six margin accounts (IM and VM, every pool, as far as positive), its default fund, the CCP's equity, the active other members' positive default funds and their credit limits; the first four take the smaller of that and the loss before, the fifth one fraction of every positive limit, at most a tenth; a step runs exactly when the one before left a loss. |
| `WaterfallTerms.MarginIsPosted` | services/liquidation-engine/src/liquidation_engine/waterfall.py:312-325 | Posted margin is the sum of the positive balances of a member's two margin kinds in all three pools. |
| `WaterfallTerms.SurvivorPays` | services/liquidation-engine/src/liquidation_engine/waterfall.py:244-303 | What one survivor pays: loss over all funds (at most 1) times its positive DEFAULT_FUND AVAILABLE balance, and loss over all limits (at most 0.1) times its positive credit limit from SETTLEMENT AVAILABLE. |
| `WaterfallTerms.OthersPay` | services/liquidation-engine/src/liquidation_engine/waterfall.py:145-220 | What the others pay: the defaulter's MARGIN_IM and DEFAULT_FUND and the CCP's equity account pay what their steps applied, if positive; every other account but the recovery account keeps its balance. |
| `Waterfall.ClosedFormExact` | services/liquidation-engine/src/liquidation_engine/waterfall.py:78-108 | With no precondition: for every exposure the final loss is max(0, exposure - all five layers), if and only if neither the margin alone nor the margin with the defaulter's fund exceeds the five layers together, and no negative credit limit distorts the last of them. |
| `Waterfall.ClosedFormAt` | services/liquidation-engine/src/liquidation_engine/waterfall.py:78-108 | One exposure at a time, decided by the layers and limits before the default: up to the highest of the first four layers the closed form holds if all five cover the exposure; above it, if no limit is negative, or none positive, or their sum is positive and the exposure exhausts every cap; and only then. |
| `Waterfall.ClosedForm` | services/liquidation-engine/src/liquidation_engine/waterfall.py:78-110 | With no negative layer: closed form, `resolved` exactly when the layers cover the exposure, the executed steps are the shortest sufficient prefix, and the loss never grows. |
| `Waterfall.StepsFollowLayers` | services/liquidation-engine/src/liquidation_engine/waterfall.py:78-108 | For fund and equity balances of any sign, after step k the loss is what layer k leaves, and a step runs exactly while a loss remains. |
| `Waterfall.WaterfallConserves` | services/liquidation-engine/src/liquidation_engine/waterfall.py:145-309 | With no precondition: applied amounts + remaining = exposure, each row continues the one before it, and the journals posted add up to what the steps applied. |
| `Waterfall.PayAllMoves` | services/liquidation-engine/src/liquidation_engine/waterfall.py:355-408 | Each found source falls by what was taken from it; the CCP's settlement account, if found, rises by everything. |
| `Waterfall.WaterfallCommit` | services/liquidation-engine/src/liquidation_engine/waterfall.py:393-408 | The commit trigger aborts the waterfall, changing nothing, exactly when some journal found only one of its two accounts. |
| `Waterfall.RecoveryExact` | services/liquidation-engine/src/liquidation_engine/waterfall.py:145-309 | End to end for any signs: on an onboarded system the waterfall commits, the CCP's settlement balance rises by the loss absorbed plus what negative layers make it overcollect, less what the CCP was itself charged as a liable survivor; every other balance falls by exactly what was drawn from it; and the rise equals the loss absorbed exactly under the stated condition. |
| `Waterfall.WaterfallCollects` | services/liquidation-engine/src/liquidation_engine/waterfall.py:145-309 | With no precondition: the journals collect the loss absorbed plus the overcollection, and the row of step 3 shows the equity balance before the default. |
| `Waterfall.StepThreeRuns` | services/liquidation-engine/src/liquidation_engine/waterfall.py:78-94 | Step 3 runs exactly when neither the margin nor the margin with the defaulter's fund covers the exposure. |
| `Waterfall.RecoveryReachesHouse` | services/liquidation-engine/src/liquidation_engine/waterfall.py:384-408 | With all accounts found the total recovered arrives at the CCP and every source pays its part. |
| `Waterfall.PhantomRecovery` | services/liquidation-engine/src/liquidation_engine/waterfall.py:384-408 | With no account found at all, the waterfall commits journals without entries: the loss is recorded as absorbed and no balance moves. |
| `Waterfall.FundDraw` | services/liquidation-engine/src/liquidation_engine/waterfall.py:231-260 | Step 4 takes at most its balance from each default fund and nothing from the defaulter's. |
| `Waterfall.FundsStayNonNegative` | services/liquidation-engine/src/liquidation_engine/waterfall.py:170-260 | A waterfall overdraws no default fund. |
| `Waterfall.CollateralUntouched` | services/liquidation-engine/src/liquidation_engine/waterfall.py:367-408 | A waterfall takes nothing from collateral accounts. |
| `Waterfall.ExecutePayers` | services/liquidation-engine/src/liquidation_engine/waterfall.py:145-309 | Every journal takes from the defaulter's margin or fund, the CCP's equity, or an active survivor's fund or settlement account. |
| `LiquidationEngine.CreateWaterfallJournal` | services/liquidation-engine/src/liquidation_engine/waterfall.py:367-408 | Writes the journal and, of its two entries, those whose account is found. |
| `LiquidationEngine.StepDefaulterMargin` | services/liquidation-engine/src/liquidation_engine/waterfall.py:153-167 | Posts and records what the specification of step 1 says, against MARGIN_IM for both margins: the row measures the six margin accounts and applies the smaller of that and the loss. |
| `LiquidationEngine.StepDefaulterDefaultFund` | services/liquidation-engine/src/liquidation_engine/waterfall.py:178-192 | The same for step 2, reading the fund inside the transaction. |
| `LiquidationEngine.StepCcpEquity` | services/liquidation-engine/src/liquidation_engine/waterfall.py:202-220 | The same for step 3, with or without a CCP house. |
| `LiquidationEngine.AllocateProRata` | services/liquidation-engine/src/liquidation_engine/waterfall.py:247-260 | The loop posts exactly the specified contributions, skipping survivors with nothing to give, and accumulates their total. |
| `LiquidationEngine.StepSurvivingDefaultFund` | services/liquidation-engine/src/liquidation_engine/waterfall.py:231-266 | Step 4 over the survivors with a positive fund balance, capped at it. |
| `LiquidationEngine.StepLossAllocation` | services/liquidation-engine/src/liquidation_engine/waterfall.py:277-309 | Step 5 over all survivors, capped at a tenth of the credit limit. |
| `LiquidationEngine.ExecuteWaterfall` | services/liquidation-engine/src/liquidation_engine/waterfall.py:47-117 | Declares the default, runs the steps while a loss remains and leaves exactly the journals, rows and status of the specified waterfall. |
| `LiquidationEngine.DeclareDefault` | services/liquidation-engine/src/liquidation_engine/waterfall.py:47-117 | The transaction around it: all of its writes or none, as the foreign key and the trigger decide. |
| `Trading.NovatedExactly` | services/trade-ingestion/src/trade_ingestion/novation.py:34-49 | A trade ends novated exactly when every listed check holds, and rejected with nothing posted otherwise; a zero margin rate rejects it too. A novated trade adds exactly its two legs. |
| `Trading.LegsOfTrade` | services/trade-ingestion/src/trade_ingestion/novation.py:125-132 | What consistency means for one trade: exactly its two legs, or none. |
| `Trading.ProcessConsistent` | services/trade-ingestion/src/trade_ingestion/novation.py:312-335 | Processing keeps trades and legs consistent if and only if the trade was not novated before: without deduplication a second delivery rejects a novated trade and leaves its legs behind. |
| `Trading.NovationPosts` | services/trade-ingestion/src/trade_ingestion/novation.py:134-140 | A novation posts one confirmed margin journal for each leg, and moves the AVAILABLE and LOCKED initial margin of its two parties by quantity x price x rate and no other balance. |
| `Trading.NovationMargins` | services/trade-ingestion/src/trade_ingestion/novation.py:134-140 | Each party's available margin account rises, and its locked one falls, by quantity x price x rate. |
| `Trading.NovationLedger` | services/trade-ingestion/src/trade_ingestion/novation.py:212-246 | Novation keeps the books sound, leaves every member's AVAILABLE + LOCKED margin unchanged and touches no other account. |
| `TradeIngestion.SubmitTrade` | services/api-gateway/src/api_gateway/main.py:84-101 | The trade as submitted and one unpublished event with its data are committed together, or neither when a foreign key refuses. |
| `TradeIngestion.LockMarginAccounts` | services/trade-ingestion/src/trade_ingestion/novation.py:218-246 | One journal from AVAILABLE to LOCKED; raises without both accounts or with an amount that is not positive. |
| `TradeIngestion.NovateTrade` | services/trade-ingestion/src/trade_ingestion/novation.py:107-140 | Sets the status, adds both legs, locks both margins, or raises as specified. |
| `TradeIngestion.ProcessTrade` | services/trade-ingestion/src/trade_ingestion/novation.py:312-320 | Validates, novates inside a savepoint, and rejects on any exception with the savepoint undone. |
| `TradeIngestion.ProcessIfNew` | shared/src/ccp_shared/idempotency.py:29-44 | Answers whether the mark is new and leaves it set. |
| `TradeIngestion.HandleMessage` | services/trade-ingestion/src/trade_ingestion/consumer.py:32-49 | Mark and novation in one transaction; a duplicate changes nothing. |
| `Netting.GroupPositions` | services/netting-engine/src/netting_engine/netting.py:60-86 | The dictionary loop yields, in insertion order, bought and sold totals, the last price and the first settlement type of every key. |
| `Netting.CalculateNetObligations` | services/netting-engine/src/netting_engine/netting.py:60-103 | The two loops compute the specified obligations. |
| `Netting.ObligationsAre` | services/netting-engine/src/netting_engine/netting.py:88-101 | Independently of any order: one obligation for every key whose bought and sold quantities differ, none for any other, at most one per key. |
| `Netting.ObligationsCarryNet` | services/netting-engine/src/netting_engine/netting.py:90-92 | Dropping zeros loses nothing: per key the obligations carry exactly bought less sold. |
| `Netting.OrderIrrelevant` | services/netting-engine/src/netting_engine/netting.py:62-103 | With one price and settlement type per instrument, permuting the positions permutes the obligations. |
| `Netting.InstrumentAmount` | services/netting-engine/src/netting_engine/netting.py:93-101 | Per instrument the net amounts add up to its price times the signed quantity of its positions. |
| `Netting.FetchSum` | services/netting-engine/src/netting_engine/netting.py:119-130 | Grouping the open legs preserves every additive measure of them. |
| `Netting.EnrichWithPrices` | services/netting-engine/src/netting_engine/netting.py:180-189 | Every position gets its instrument's latest price (0 when there is none) and settlement type; an unknown instrument is cash at price 0. |
| `Netting.CycleNet` | services/netting-engine/src/netting_engine/netting.py:383-385 | Per key a cycle nets exactly the open legs up to the cut-off. |
| `Netting.CycleAmount` | services/netting-engine/src/netting_engine/netting.py:383-385 | Per instrument a cycle's amounts are its price times the net of the included legs. |
| `NettingCycle.MarkConserves` | services/netting-engine/src/netting_engine/netting.py:279-287 | Marking moves exactly the included legs out of the open position. |
| `NettingCycle.MarkKeepsConsistent` | services/netting-engine/src/netting_engine/netting.py:279-287 | A cycle takes both legs of a trade or neither. |
| `NettingCycle.IncludedNetToZero` | migrations/versions/005_create_trades_and_positions.py:54-71 | Whatever the cut-off, the included legs of an instrument net to zero over all members. |
| `NettingCycle.CycleFlat` | services/netting-engine/src/netting_engine/netting.py:88-101 | Multilateral netting is flat: per instrument all net amounts add up to zero. |
| `NettingCycle.InstructionFlows` | services/netting-engine/src/netting_engine/netting.py:231-257 | To the CCP the instructions bring exactly the net amounts, to each member minus its own. |
| `NettingCycle.Compression` | services/netting-engine/src/netting_engine/netting.py:88-101 | What a cycle settles is at most the gross value of the legs it nets. |
| `NettingEngine.InsertObligationsAndInstructions` | services/netting-engine/src/netting_engine/netting.py:209-263 | One obligation row and one pending instruction each; the sign of the net amount decides who pays; no chain is set. |
| `NettingEngine.MarkTradesClosed` | services/netting-engine/src/netting_engine/netting.py:279-287 | The UPDATE row by row: a leg changes exactly when it is open and not after the cut-off, and then in its status alone; the count is the number of such legs. |
| `NettingEngine.AnnounceInstructions` | services/netting-engine/src/netting_engine/netting.py:420-432 | One event for every instruction, in order. |
| `NettingEngine.RunNettingCycle` | services/netting-engine/src/netting_engine/netting.py:353-448 | The whole cycle as one transaction, with its counts; without a CCP house it raises and leaves no trace. |
| `Settlement.SetStatusHistory` | services/settlement-engine/src/settlement_engine/settler.py:35-77 | An update along an edge of the table from the stored status keeps every history a path. |
| `Settlement.CashKeeps` | services/settlement-engine/src/settlement_engine/settler.py:128-188 | Cash settlement keeps histories, journal counts, flows and the ledger consistent. |
| `Settlement.SettleKeeps` | services/settlement-engine/src/settlement_engine/settler.py:102-125 | So does everything that happens up to the first commit, including failures. |
| `Settlement.NextRunKeeps` | services/settlement-engine/src/settlement_engine/settler.py:223-284 | So does each later transaction of an on-chain run, whatever the external calls do and wherever the worker dies. |
| `Settlement.FinalizeKeeps` | services/settlement-engine/src/settlement_engine/settler.py:287-342 | Finalizing posts a transfer exactly when both accounts exist and the amount is positive; without the accounts it confirms with no journal. |
| `Settlement.TerminalAbsorbing` | services/settlement-engine/src/settlement_engine/settler.py:29-31 | A path cannot leave a terminal status. |
| `Settlement.LoggedFromExactly` | services/settlement-engine/src/settlement_engine/settler.py:223-284 | A later transaction of a run logs the stored status as its from-status if and only if it is not the exception handler's for a run past its approval. |
| `Witnesses.HandlerMisreports` | services/settlement-engine/src/settlement_engine/settler.py:279-284 | That failure happens: in a state that the system reaches (by submission, novation, netting, routing, delivery, signing and broadcast) the next row says `approved` for a broadcast instruction. |
| `Witnesses.EventIsLost` | services/settlement-engine/src/settlement_engine/consumer.py:93-96 | The loss of an event happens: a session of the services alone, from the seed, loses the event of a pending instruction. |
| `SettlementEngine.AdvanceStatus` | services/settlement-engine/src/settlement_engine/settler.py:49-77 | Refuses, changing nothing, what is none of the nine status changes of the table; otherwise sets and logs the status. |
| `SettlementEngine.SettleCashInstruction` | services/settlement-engine/src/settlement_engine/settler.py:138-188 | Pending to confirmed in one transaction, with a transfer only for a positive amount; failed without both accounts. |
| `SettlementEngine.BeginDvp` | services/settlement-engine/src/settlement_engine/settler.py:211-224 | Fails without a chain, raises for an unregistered one, approves otherwise. |
| `SettlementEngine.SettleInstruction` | services/settlement-engine/src/settlement_engine/settler.py:102-125 | Only a pending instruction is looked at; cash and on-chain are dispatched. |
| `SettlementEngine.HandleInstruction` | services/settlement-engine/src/settlement_engine/consumer.py:77-96 | Mark and settlement in one transaction; an exception rolls the mark back too. |
| `SettlementEngine.AfterSignCall` | services/settlement-engine/src/settlement_engine/settler.py:237-243 | One transaction after the signing call. |
| `SettlementEngine.AfterSubmitCall` | services/settlement-engine/src/settlement_engine/settler.py:245-257 | One transaction after the submission. |
| `SettlementEngine.FinalizeDvp` | services/settlement-engine/src/settlement_engine/settler.py:299-339 | The last transaction; a refused entry loses it as a whole. |
| `SettlementEngine.RunDvp` | services/settlement-engine/src/settlement_engine/settler.py:226-284 | A whole on-chain run against the polled stub chain is exactly the run of the state machine that its calls' answers select, the chain confirming exactly when it requires at most 31 confirmations. |
| `SettlementEngine.RunOutcome` | services/settlement-engine/src/settlement_engine/settler.py:260-284 | How such a run ends: failed, with nothing posted, if a call raises or the chain does not confirm; otherwise confirmed with one journal from the payer's to the payee's SETTLEMENT AVAILABLE account if both are there and the amount is positive, confirmed without a journal if one is missing, left broadcasted if there is nothing to move. No other account moves. |
| `Chain.PollConfirmations` | services/settlement-engine/src/settlement_engine/settler.py:345-355 | A fresh stub transaction ends confirmed exactly when at most 31 confirmations are required, then with enough of them; it is never reported failed. |
| `Chain.StubChainAdapter.SubmitSignedTx` | shared/src/ccp_shared/chain/stubs.py:78-95 | Tracks the transaction from zero polls. |
| `Chain.StubChainAdapter.GetTxStatus` | shared/src/ccp_shared/chain/stubs.py:97-126 | Each check counts one confirmation; an unknown hash has failed and counts nothing. |
| `Outbox.NextBusKeeps` | services/outbox-publisher/src/outbox_publisher/publisher.py:109-143 | Every publisher step, in any interleaving, keeps: disjoint locks, a log that copies rows faithfully, published rows logged, copies bounded by 1 + aborts. |
| `Outbox.EmitKeeps` | shared/src/ccp_shared/kafka/outbox.py:38-58 | So does inserting a row; its row number is its event_id. |
| `Outbox.CandidatesAreOldest` | services/outbox-publisher/src/outbox_publisher/publisher.py:34-45 | A fetch takes unlocked, unpublished rows oldest first and leaves one out only when the batch is full. |
| `Outbox.CandidatesCount` | services/outbox-publisher/src/outbox_publisher/publisher.py:34-45 | With nothing locked it takes min(limit, unpublished) rows. |
| `Outbox.CommitPublishes` | services/outbox-publisher/src/outbox_publisher/publisher.py:98-106 | Committing a batch publishes exactly its rows. |
| `Outbox.OutboxDrains` | services/outbox-publisher/src/outbox_publisher/publisher.py:125-137 | With no inserts, no failure and no other publisher, k batches leave n - k x limit rows, so ceil(n / limit) batches publish all. |
| `OutboxPublisher.FetchUnpublishedBatch` | services/outbox-publisher/src/outbox_publisher/publisher.py:34-45 | The SELECT row by row: unlocked, unpublished rows, oldest first, one left out only when the batch is full; the rows returned are locked. |
| `OutboxPublisher.PublishBatch` | services/outbox-publisher/src/outbox_publisher/publisher.py:66-83 | Appends the messages of the batch in order, up to the event at which the producer raises. |
| `OutboxPublisher.ProcessBatch` | services/outbox-publisher/src/outbox_publisher/publisher.py:125-143 | Publishes the batch and returns its size, or on an exception publishes nothing and releases the locks while the messages already produced stay in the log. |
| `OutboxPublisher.BatchKeeps` | services/outbox-publisher/src/outbox_publisher/publisher.py:125-143 | A batch that completes or fails at any event keeps the outbox invariant. |
| `OutboxPublisher.BatchIsRound` | services/outbox-publisher/src/outbox_publisher/publisher.py:125-137 | The code's undisturbed batch is the round of the progress theorem. |
| `Consumer.KafkaConsumer.PollLoop` | shared/src/ccp_shared/kafka/consumer.py:61-101 | One process of the consumer, up to its death or stop, does exactly the specified passes to the database, the committed position and the dead letters. |
| `Consumer.KafkaConsumer.HandleOne` | shared/src/ccp_shared/kafka/consumer.py:72-101 | One message: decode, callback, dead letter, offset commit, with a death possible before each. |
| `Consumer.PositionExactly` | shared/src/ccp_shared/kafka/consumer.py:98-101 | A pass raises the committed position by one if there is a message and the process lives to commit it (or it is of another topic), and leaves it otherwise. |
| `Consumer.Advances` | shared/src/ccp_shared/kafka/consumer.py:72-101 | With n messages ahead, n passes that the process lives through raise the committed position by exactly n, whatever the rest of the system does in between; if they get through, every submitted trade's message among them has been ingested. |
| `Consumer.ProcessAdvances` | shared/src/ccp_shared/kafka/consumer.py:61-101 | The same for one process without interruption: from p to p + n, with every submission at an offset in between marked. |
| `Consumer.BothExactly` | services/trade-ingestion/src/trade_ingestion/consumer.py:44-49 | A message is both ingested and dead-lettered by one pass exactly when its callback raises after its commit and the process lives to store the dead letter. |
| `Consumer.HistoryExactly` | shared/src/ccp_shared/kafka/consumer.py:78-101 | Over any passes and restarts: an event is marked exactly if it was before or some pass over a copy committed the callback, an offset is dead-lettered exactly if it was before or some pass over it stored a dead letter; so both hold exactly when both happened, in one pass or, after a death, in two. |
| `Consumer.LostExactly` | shared/src/ccp_shared/kafka/consumer.py:103-150 | A pass that commits a fresh message's offset loses it exactly when the callback committed nothing and the dead letter insert failed too. |
| `Consumer.NothingLost` | shared/src/ccp_shared/kafka/consumer.py:78-101 | Over any number of processes that die anywhere and restart from the committed position, with any steps of the rest of the system in between: every submitted trade's message below the position has been ingested, dead-lettered, or dropped by a failed dead letter insert. |
| `Consumer.LossFree` | shared/src/ccp_shared/kafka/consumer.py:78-101 | While dead letter inserts succeed, every such message has been ingested or dead-lettered. |
| `Consumer.SessionsReachable` | shared/src/ccp_shared/kafka/consumer.py:61-101 | Consuming in this way is a run of the system, so that everything shown of reachable states holds between any two passes. |
| `Collateral.CollateralMoves` | services/collateral-manager/src/collateral_manager/operations.py:35-64 | What deposits, withdrawals and margin transfers move on every account, and exactly when the latter two are refused for lack of margin. |
| `Collateral.GrantedExactly` | services/collateral-manager/src/collateral_manager/operations.py:35-81 | Exactly when a deposit, a withdrawal and a margin transfer are granted, and which journal each then posts. |
| `Effects.DepositExactly` | services/collateral-manager/src/collateral_manager/operations.py:35-81 | A step of the system that deposits: a positive amount with both accounts there moves from the CCP's SETTLEMENT AVAILABLE to the member's COLLATERAL AVAILABLE account under one deposit journal, and no other account moves; otherwise nothing happens. |
| `Effects.WithdrawalExactly` | services/collateral-manager/src/collateral_manager/operations.py:104-162 | The reverse for a withdrawal, if the member's collateral balance allows it. |
| `Effects.MoveExactly` | services/collateral-manager/src/collateral_manager/operations.py:185-227 | From the member's collateral to the named AVAILABLE account of the same member, if the balance allows it. |
| `Effects.VariationExactly` | services/margin-engine/src/margin_engine/calculator.py:158-194 | From the member's LOCKED to its AVAILABLE variation margin account, in the direction of the sign. |
| `Collateral.CollateralKeepsSafe` | services/collateral-manager/src/collateral_manager/operations.py:111-118 | Whatever their arguments, they overdraw no collateral and no default fund and keep the ledger sound. |
| `Collateral.WithdrawUndoesDeposit` | services/collateral-manager/src/collateral_manager/operations.py:104-145 | After a deposit the same withdrawal is granted and restores every balance. |
| `Collateral.VariationMarginMoves` | services/margin-engine/src/margin_engine/calculator.py:158-194 | A variation margin of either sign raises the available VM balance by it, lowers the locked one and moves no other account; zero is refused; without both accounts nothing is posted. |
| `Collateral.MarginOfLeg` | services/margin-engine/src/margin_engine/calculator.py:32 | The initial margin of a leg, long or short, is its quantity times price times rate, which is what novation locks. |
| `Collateral.NettingSavesMargin` | services/margin-engine/src/margin_engine/calculator.py:32 | Initial margin on a net position is at most the sum of the initial margins of its parts at the same price and rate. |
| `CollateralManager.DepositCollateral` | services/collateral-manager/src/collateral_manager/operations.py:35-81 | Raises as specified and changes nothing, or posts the specified journal and returns its id. |
| `CollateralManager.WithdrawCollateral` | services/collateral-manager/src/collateral_manager/operations.py:104-162 | The same for a withdrawal, checking the balance before looking for the CCP's account. |
| `CollateralManager.MoveToMargin` | services/collateral-manager/src/collateral_manager/operations.py:185-227 | The same for a transfer to margin. |
| `CollateralManager.ProcessVariationMargin` | services/margin-engine/src/margin_engine/calculator.py:158-194 | The same for variation margin; a refused entry undoes its journal; without VM accounts nothing happens. |

## Left out

- Decimal rounding inside the other theorems: they are about exact reals.
- READ COMMITTED races (between netting's fetch and mark, between a balance check and its posting, between two reads
  of a pending instruction): transactions are serial.
- The repository's own SQL engine behaviour beyond foreign keys, the CHECK constraints of the entries table, the
  unique account key, savepoints and the deferred trigger; the CHECK lists of journal, leg and step names, which
  disagree with the names that the services write, become datatypes.
- Notification events (trade novated or rejected, cycle completed, settlement completed or failed, default declared,
  step executed): only the two kinds of event that drive a consumer are rows of the outbox.
- Status logs of trades, legs, cycles and default events, and the INITIATED/CALCULATING/CONFIRMED status of a cycle.
- Journal ids in waterfall rows, transaction hashes, block numbers and confirmation counts on instructions.
- Margin requirements, margin calls and the recalculation loop: the posted amount is updated under a name that no row
  has, so that no shortfall ever shrinks.
- `ledger_transaction`, which queries columns that the ledger table does not have.
- The Idempotency-Key header and the uniqueness of external trade ids at submission.
- Messages without an event_id, other than through `Trading.ProcessConsistent`: every event inserted through the
  outbox carries one.
- Consumer loops other than `KafkaConsumer`'s and the settlement engine's.
- Asynchronous offset commits: a commit takes effect at once. The committed position can lag behind the process's, and
  then more messages are read again after a death; the system's steps allow every redelivery.
- Messages still queued when `flush` gives up.
- Partitions and rebalancing: a topic is one log, read from the group's committed position.
- A price row with an explicit null in a position: the queries never produce one.
- Signing, hashing, addresses and the content of on-chain transactions; the Ethereum adapter; the price oracle (prices
  are any reals).
- HTTP endpoints, role checks, health checks, tracing, compliance monitors, demo scripts.
- Theorems.CcpEndsFlat: assumes that the CCP house is not itself a party to a trade; a leg of the house would be
  netted against itself.
- OutboxPublisher.ProcessBatch: one publisher's uninterrupted batch; interleavings of publishers are in
  `Outbox.NextBusKeeps`.
- SettlementEngine.RunDvp: one worker's uninterrupted run; interleavings are in `Settlement.NextRunKeeps`.
