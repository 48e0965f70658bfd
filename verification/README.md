# Recovery allocation and exactly-once execution: a verified model

Niyama/Yukti decides which failed payments to chase, under budgets a merchant authorised,
and executes each decision once. This project models the parts of that system where a
mistake costs money or corrupts a measurement, and proves what they guarantee:

- the **allocator**: a Lagrangian selection with per-case and per-customer caps, alternating
  bisection of two prices, trim, fill, a density greedy, a windowed exchange pass, a costless
  pass, a dual certificate, the exhaustive optimum it is compared with, and the online form;
- the **exactly-once path**: dispatcher, idempotent vendor, transactional outbox, and the
  consumer that turns payment events into cases, as step systems with crashes, lost locks,
  lost replies, redelivery and rollback between any two steps;
- the **planning cycle**: buckets, ledger spending, weekly contact cap and holdout containment
  across ingest, planning, approvals, sweeps and captures;
- the **audit chain**: what its tip commits to and exactly which tampering shows.

Code that updates state is modelled as classes and loops proved against functions; the
theorems are lemmas about those functions. `dafny verify dfyconfig.toml` checks everything.

## Modules

| file | what it holds |
|---|---|
| `Candidates`, `Sorting`, `Options`, `InsertionDict` | candidates and budgets, stable sorting, insertion-ordered dictionaries |
| `Selection`, `Certificate`, `BruteForce` | greedy selection and its exchange argument, the dual, the exhaustive optimum |
| `RunningState`, `Passes`, `Exchange`, `Costless`, `Bisection`, `Allocate` | the passes of `allocate` and their composition |
| `Streaming` | the online allocator |
| `BudgetLedger`, `Policy`, `BestOption`, `PlanCycle`, `WeeklyCap` | one planning cycle and what it accounts for |
| `Vendor`, `Dispatch`, `Outbox` | effects: at most once, exactly once when marked, announced with their mark, published without loss |
| `Opportunity`, `Consumer`, `Replay`, `Recovery` | cases, at-least-once ingest, holdout containment |
| `AuditChain` | the hash chain |

## Where the code and its own words differ

The model follows the code. Each difference below is a theorem, not a remark.

- The dual is documented as always an upper bound. For a given set of actions and a cap of K
  contacts per customer it is one for all margins, budgets and prices if and only if K is zero
  or no customer has a case mixing a contact and a silent action beside K other cases with a
  contact (`Certificate.CertifiedExactlyWhenNothingCrosses`); a particular instance with such
  cases may still be certified. Where the dual falls below the plan found, `allocate` raises on
  sound data (`Allocate.CrossedInstanceRaises`); counting the selected part twice always bounds.
- After a malformed record the consumer says the batch will be replayed. Nothing rewinds the
  consumer, and the next offset commit passes the discarded events
  (`Replay.BadRecordLosesABatch`). Once that commit succeeds, and if no id repeats and no
  malformed record follows, every event is in place at the end if and only if the open
  transaction equalled the committed tables
  (`Replay.BadRecordIsSafeExactlyWhenBatchDidNothing`); a crash or rebalance before it still
  redelivers them.
- The dedup cache is written before the database commits, so a crash can leave a key for an
  event no table has. Replay restores everything exactly when no such key is still to come
  (`Replay.CrashIsSafeExactlyWhenNoKeyIsOrphaned`).
- The outbox checkpoint is described as set only after every record was acknowledged. The code
  looks for error reports only. A drain leaves a published row off its topic if and only if the
  flush returned without an error and with a record outstanding that the topic does not hold
  (`Outbox.OutboxRelay.Drain`); such a record may still arrive, and if it is given up the row
  is lost for good (`Outbox.SilentTimeoutLosesARow`).
- Retrying a pending action is described as safe because the vendor holds its key. An approval
  sends no vendor key, so the key a sweeper sends is new to the vendor and the effect repeats
  (`Dispatch.RetryIsSingleEffectExactlyWhenKeyed`). It repeats once at most, however often the
  action is retried (`Dispatch.EffectsHappenAtMostTwice`).
- A planning cycle is described as charging what was dispatched. A vendor call whose reply is
  lost is marked failed although the customer was reached, and neither budgets nor the weekly
  cap count it (`Dispatch.FailedMessageExactlyWhenReplyLost`); a link is left behind a failed or
  rejected row also when its notification was not answered or had no channel
  (`Dispatch.FailedEffectExactlyWhenCutShort`).
- The contact cap is worded per customer and week. A cycle counts the seven days before its
  planning moment, which the caller may set, and dispatches at the present one; contacts outside
  the counted week are not seen, and whatever the cap a batch that breaks it is let through
  (`WeeklyCap.UncountedContactsBreakTheCap`). The cap holds over a run if and only if
  every contact found room when it was sent (`WeeklyCap.CapHoldsExactlyWhenRoomThroughout`),
  which the count guarantees when it covers everything within a week of what is sent
  (`WeeklyCap.CapHoldsInEveryWindow`).
- Recording an outcome is described as idempotent by construction. It is a check followed by
  an insert; two recorders can both pass the check (`Recovery.TwoRecordersCountTwice`).
- A release is described as floored so that a double release cannot manufacture budget. The
  floor only helps when the first release left nothing to take
  (`BudgetLedger.DoubleReleaseIsHarmlessExactlyWhen`); otherwise more can be granted than the
  limit (`BudgetLedger.DoubleReleaseOverspends`).
- Cutting the newest rows off an audit chain is not detected, by design of the chain
  (`AuditChain.ReshufflingShowsUnlessPrefix`).

## Model

| member | source | states |
|---|---|---|
| Sorting.SortIsStable | control/yukti/allocator/lagrangian.py:211-217 | sorting with the largest key first leaves candidates of equal key in their original order |
| Candidates.DistinctCases | control/yukti/allocator/lagrangian.py:219-233 | "at most one action per case" as a sum over the list is the same as pairwise distinct cases |
| Candidates.PermutationFeasible | control/yukti/allocator/lagrangian.py:97-123 | feasibility and margin do not depend on the order of the funded list |
| Selection.WorthIsPricedMargin | control/yukti/allocator/lagrangian.py:201-234 | total reduced value is margin less price times resources drawn |
| Selection.SelectedAdmissible | control/yukti/allocator/lagrangian.py:201-234 | the selection respects both caps and holds only candidates that clear their price |
| Selection.MakeRoom | control/yukti/allocator/lagrangian.py:201-234 | taking an admitted candidate costs any admissible list at most two members, and two only if the caps cross: a silent case mate went, and contacts to other cases of the customer fill the cap |
| Selection.NoMixedCaseNeverCrosses | control/yukti/allocator/lagrangian.py:219-233 | if no case mixes contacting and silent candidates, no caps cross |
| Selection.CrossingsThinOut | control/yukti/allocator/lagrangian.py:219-233 | a cap under which nothing crosses can be raised and still nothing crosses |
| Selection.SelectionIsOptimal | control/yukti/allocator/lagrangian.py:201-234 | for any contact cap under which no caps cross, the greedy selection is worth at least every admissible list, for all multipliers |
| Selection.SelectionIsHalfOptimal | control/yukti/allocator/lagrangian.py:201-234 | with no assumption, twice the selection's worth bounds every admissible list |
| Certificate.DualBoundsEveryPlan | control/yukti/allocator/lagrangian.py:553-592 | weak duality: the dual at any nonnegative multipliers bounds every feasible plan when no caps cross |
| Certificate.DoubledDualBoundsEveryPlan | control/yukti/allocator/lagrangian.py:581-584 | counting the selected part twice bounds every feasible plan unconditionally |
| Certificate.DualIsPricedBound | control/yukti/allocator/lagrangian.py:581-584 | the dual is the margin of the selection at the multipliers plus what the budget it leaves is priced at |
| Certificate.SelectionIsBest | control/yukti/allocator/lagrangian.py:553-592 | complementary slackness: a selection that keeps to the budgets and uses up every budget with a price is the best feasible plan when no caps cross |
| Certificate.CertifiedExactlyWhenNothingCrosses | control/yukti/allocator/lagrangian.py:553-592 | for each contact cap, the dual certifies a set of actions for all margins, budgets and prices if and only if no caps cross under it |
| Certificate.CrossingBreaksTheBound | control/yukti/allocator/lagrangian.py:553-592 | whenever caps cross, some margins make the dual fall below a plan feasible under the same contact cap |
| RunningState.FitsExactly | control/yukti/allocator/lagrangian.py:369-380 | on a feasible plan, fitting is the same as staying feasible with the candidate added |
| RunningState.RefusalPersists | control/yukti/allocator/lagrangian.py:369-404 | what a larger plan accepts a smaller one accepts, so a refusal stays a refusal |
| RunningState.ExchangeExactly | control/yukti/allocator/lagrangian.py:328-350 | fitting the plan without its i-th action is the same as the exchanged plan being feasible |
| RunningState.Running.Add | control/yukti/allocator/lagrangian.py:319-326 | incremental totals, cases and per-customer counts equal those recomputed from the longer list |
| RunningState.Running.FitsReplacing | control/yukti/allocator/lagrangian.py:328-350 | the O(1) check agrees with rebuilding the state without the replaced action |
| RunningState.Running.Replace | control/yukti/allocator/lagrangian.py:352-367 | incremental state after an exchange equals the state of the exchanged list |
| RunningState.TrackingIsExact | control/yukti/allocator/lagrangian.py:294-380 | two states that track the same list are equal field for field, however they were reached |
| Passes.Select | control/yukti/allocator/lagrangian.py:201-234 | the loop over dictionaries and sets computes the specified selection |
| Passes.Fill | control/yukti/allocator/lagrangian.py:383-404 | best margin first: whatever is worth more than an action that was added, is not already picked and was not added earlier, did not fit when that action was added; the loop over running totals returns the specified plan |
| Passes.FilledIsMaximal | control/yukti/allocator/lagrangian.py:383-404 | filling keeps feasibility and leaves no unpicked positive-margin candidate that fits |
| Passes.Greedy | control/yukti/allocator/lagrangian.py:407-428 | densest first, a contact counting for 10000 paise of discount and what draws nothing before everything else: whatever beats an action of the plan was taken earlier or did not fit then; the loop returns the specified plan |
| Passes.GreedyPlanFeasible | control/yukti/allocator/lagrangian.py:407-428 | the density-greedy plan is feasible |
| Passes.FillingGreedyAddsNothing | control/yukti/allocator/lagrangian.py:636-638 | filling a density-greedy plan returns it unchanged |
| Passes.Trim | control/yukti/allocator/lagrangian.py:616-631 | the loop drops exactly the first cheapest spender each time, meets the limit, keeps no spender cheaper than one dropped, and stops as soon as it can |
| Exchange.WindowsHoldTheExtremes | control/yukti/allocator/lagrangian.py:431-490 | nothing outside the windows is weaker than the weakest kept or stronger than the strongest considered |
| Exchange.BestSwap | control/yukti/allocator/lagrangian.py:431-490 | the chosen exchange is feasible, improves, and no exchange in the windows of 32 gains more; none means none exists there |
| Exchange.ConservedByExchange | control/yukti/allocator/lagrangian.py:431-490 | an exchange conserves chosen plus outside as a multiset |
| Exchange.Improve | control/yukti/allocator/lagrangian.py:431-490 | the pass keeps feasibility and size, gains at least one paisa per swap, conserves the objects, and stops early only when settled |
| Exchange.SettledMeansLocallyOptimal | control/yukti/allocator/lagrangian.py:431-490 | if both sides fit the windows, settling means no single feasible exchange with any candidate improves |
| Costless.CostlessKeepsFeasible | control/yukti/allocator/lagrangian.py:493-550 | actions that draw on nothing never break a budget or a cap |
| Costless.TakeCostless | control/yukti/allocator/lagrangian.py:516-550 | every case with a retry, scheduled debit or bare link that costs nothing and draws on nothing ends up with an action, and each one added is the best such action of a case that had none |
| Bisection.CeilingSuppresses | control/yukti/allocator/lagrangian.py:245-291 | a price no margin exceeds brings the priced resource's use to zero |
| Bisection.GrowthReachesCeiling | control/yukti/allocator/lagrangian.py:276-281 | growing fourfold from one stops at or before the twentieth power of four and not before 10^12 |
| Bisection.Bisect | control/yukti/allocator/lagrangian.py:245-291 | zero exactly when the budget is slack; otherwise a bracket no wider than 1e-9 (times the price if that exceeds one) or 2^-20, whose lower end breaks the budget, and a price that respects it when no margin passes the ceiling |
| Allocate.Prices | control/yukti/allocator/lagrangian.py:604-610 | four rounds from zero, each settling the contact price against the last discount price and then the discount price against it; zero when no budget binds; with margins up to the search ceiling the selection at the final prices keeps within the discount budget |
| Allocate.OnlyContactsNeedTrimming | control/yukti/allocator/lagrangian.py:612-634 | a selection within the discount budget is trimmed of contacts only |
| Allocate.BestHeuristic | control/yukti/allocator/lagrangian.py:612-641 | the plan handed to the exchange pass is feasible and at least as good as the trimmed and filled selection and as the density greedy, on every input |
| Allocate.Allocate | control/yukti/allocator/lagrangian.py:595-669 | every returned plan has distinct cases, respects both budgets and every customer cap, is at least as good as both heuristics, admits no improving single exchange if it settled with at most 32 candidates, and its totals account for the list; the reported bound is the margin of the selection at the reported prices plus the priced unused budget, the ratio is exactly the share of it that was achieved (1 where the bound is not positive), and it raises exactly when that bound falls below the margin |
| Allocate.AllocationIsCertified | control/yukti/allocator/lagrangian.py:581-592 | with no crossing caps it never raises and the reported bound covers every feasible plan |
| Allocate.TightPricesSolveExactly | control/yukti/allocator/lagrangian.py:553-669 | if the selection at the returned prices keeps to the budgets and uses up every budget with a price, the bound equals the achieved margin, the ratio is 1, and when no caps cross no feasible plan is worth more |
| Allocate.RatioIsSound | control/yukti/allocator/lagrangian.py:148-153 | the optimality ratio times any feasible margin never exceeds the achieved margin |
| Allocate.CrossedInstanceRaises | control/yukti/allocator/lagrangian.py:586-592 | the instance with margins 1000, 900 and 800 for one customer makes the planner raise with a dual of 1000 |
| BruteForce.EveryPlanHasAMask | control/yukti/allocator/lagrangian.py:672-695 | every list with one action per case is a permutation of some enumerated subset |
| BruteForce.Enumerate | control/yukti/allocator/lagrangian.py:672-695 | the enumeration returns the exact optimum over all feasible plans, or refuses more than 20 candidates |
| BruteForce.DualDominatesOptimum | control/yukti/allocator/lagrangian.py:553-592 | the dual bounds the exhaustive optimum when no caps cross |
| Streaming.StreamingAllocator.MakeOffer | control/yukti/allocator/streaming.py:125-159 | an offer is funded exactly if its case is free, it is worth more than its price, both budgets and its customer have room; otherwise it is refused for the first of these that fails, in that order; books stay exact, and funded plus refused equals offers |
| Streaming.StreamingAllocator.OfferAll | control/yukti/allocator/streaming.py:107-159 | a stream leaves exactly the specified funded list |
| Streaming.StreamingIsSafe | control/yukti/allocator/streaming.py:107-159 | in any arrival order all budgets and caps hold and funded margin is at most the true optimum |
| Streaming.StreamedIsFitting | control/yukti/allocator/streaming.py:125-155 | the online rule is the batch fill applied to the candidates that clear their price |
| Streaming.StreamingRefinesSelection | control/yukti/allocator/streaming.py:175-193 | offered in the selection's order at the same prices, it funds exactly the selection if and only if that fits the budgets |
| BudgetLedger.NoInterleavingOverspends | control/yukti/allocator/budget.py:59-141 | under any interleaving of loads, spends and nonnegative releases, consumption stays between zero and the limit |
| BudgetLedger.GrantsAccountForConsumption | control/yukti/allocator/budget.py:85-121 | without releases, consumption is exactly the sum of what was granted and never passes the limit |
| BudgetLedger.DoubleReleaseIsHarmlessExactlyWhen | control/yukti/allocator/budget.py:124-141 | repeating a release takes nothing more if and only if the amount is zero or the first one left nothing to take |
| BudgetLedger.BudgetTellsTheTruthExactlyWhen | control/yukti/allocator/budget.py:85-141 | over any run of grants, returns and other rows' traffic, the row equals the grants really out at every moment if and only if no grant is returned twice while something is out; then what is out stays within the limit |
| BudgetLedger.DoubleReleaseOverspends | control/yukti/allocator/budget.py:124-141 | with a limit of 100, a grant of 10 returned twice lets 110 be out at once |
| BudgetLedger.Ledger.Load | control/yukti/allocator/budget.py:55-82 | a row not yet there starts unspent with a limit of 50 contacts or 5000000 paise, a row already there is read as it is, and no other row changes |
| BudgetLedger.Ledger.Spend | control/yukti/allocator/budget.py:85-121 | a spend consumes exactly its amount from its own row, or is refused with the remaining amount and changes no row |
| Policy.EvaluateMeans | control/yukti/policy/engine.py:65-106 | blocked exactly when a rule blocks or a contact finds the weekly cap reached; else held exactly when a rule holds or an unapproved amount reaches the threshold; else allowed |
| Policy.StricterPackWins | control/yukti/policy/engine.py:65-90 | the verdict over two packs is the stricter of the two: a merchant can add to the regulator's verdict, never lift it |
| Policy.ApprovalNeverLiftsABlock | control/yukti/policy/merchantpack.py:137-163 | an approval leaves blocks blocked, never makes a verdict stricter, and changes one only at the approval threshold |
| Policy.FeasibleContactHasRoom | control/yukti/policy/merchantpack.py:66-76 | a contact the engine lets through has room under the weekly cap |
| BestOption.BestMargin | control/yukti/pipeline.py:385-454 | the best affordable margin is exact, and the discount budget is reported as the obstacle exactly when a worthwhile action exists and none within the budget is worthwhile |
| PlanCycle.EachCaseOnce | control/yukti/pipeline.py:159-177 | each loaded case is worked once, as the row loaded last, and the considered count equals the cases worked exactly when no case was loaded twice |
| InsertionDict.LastAssignmentWins | control/yukti/pipeline.py:159-177 | a dictionary built from a list holds, for every key that occurs in it, the value of its last occurrence |
| PlanCycle.PickMatches | control/yukti/pipeline.py:342-356 | the way back from an allocated candidate always succeeds and finds a proposal of the same case, action, channel and resource draw |
| PlanCycle.Gather | control/yukti/pipeline.py:223-245 | the allocator sees exactly the proposals of the survivors that nothing forbids and that are not suppressions, each with its case's customer, its own action, channel, margin and discount, and one contact if it contacts |
| PlanCycle.ViolationNeedsCrossedCaps | control/yukti/pipeline.py:247-251 | a cycle can only fail to certify where some customer's caps cross |
| PlanCycle.ActEnds | control/yukti/pipeline.py:724-790 | a funded proposal that nothing forbids is held back exactly in the holdout, held for review exactly if a rule or the approval threshold wants a human, and otherwise ends as a dry run if it is one, or else as dispatched, duplicate or failed by the dispatcher's answer |
| PlanCycle.ActOnAll | control/yukti/pipeline.py:276-287 | a case ends if and only if it was funded, exactly as its rules, its arm and the dispatcher decide; nothing is sent that is forbidden, needs a human, was stopped, is held out or finds the weekly cap reached; each bucket counts exactly the cases that ended its way, and what was sent is exactly the candidates of the cases that spent something |
| PlanCycle.Plan | control/yukti/pipeline.py:131-322 | the allocator sees exactly what the filter let through and its plan is all that allocating guarantees; every case ends as its funded candidate or its lack of one says and lands in exactly one bucket; nothing is blocked late; what was sent is the funded candidates of the cases that spent something, fits budgets and caps and goes only to treated cases; the ledger is charged exactly that without ever refusing; and the cycle fails only where the dual fell short and caps cross |
| PlanCycle.CycleKeepsLedgerSound | control/yukti/pipeline.py:291-301 | a sound ledger stays sound through a cycle |
| PlanCycle.CycleRespectsWeeklyCap | control/yukti/policy/merchantpack.py:66-76 | what a cycle dispatches contacts each customer at most once, and only with room among the contacts marked dispatched in the week before; every contact sent is counted |
| WeeklyCap.WeekIsSevenDays | control/yukti/intelligence/features.py:268-279 | a contact counts at a planning moment exactly if it lies before it and at most 604800 seconds back |
| WeeklyCap.CapHoldsExactlyWhenRoomThroughout | control/yukti/policy/merchantpack.py:66-76 | over any run of cycles, planned for whatever moments, no window of seven days holds more contacts of one customer marked dispatched than the cap if and only if each contact, when sent, found every full week that starts at a contact of its customer and reaches it below the cap |
| WeeklyCap.CapHoldsInEveryWindow | control/yukti/policy/merchantpack.py:66-76 | the cap holds over every run of cycles that each check the week before their planning moment, if what is within a week of a new contact was in the week counted |
| WeeklyCap.UncountedContactsBreakTheCap | control/yukti/intelligence/features.py:268-279 | for every cap and every planning moment whose week leaves out contacts just sent, a batch is let through that breaks the cap |
| Vendor.OneResourcePerKey | sandbox/yukti_sandbox/store.py:63-85 | over any sequence of requests a key makes one link, debit or call at most, and exactly one if it is on record |
| Vendor.OneNotificationPerMedium | sandbox/yukti_sandbox/app.py:238-287 | over any sequence of requests a link notifies over each medium once at most, and exactly once if it is on record |
| Vendor.RepeatReturnsTheOriginal | sandbox/yukti_sandbox/app.py:207-429 | repeating a keyed request or a notification that succeeded, after any other traffic, returns the original id and changes nothing |
| Dispatch.LossesHappen | control/yukti/dispatch/dispatcher.py:115-132 | a lock can expire under its holder, a crash forgets a dispatcher and nothing else, and exactly the rows left pending can be retried |
| Dispatch.StepKeeps | control/yukti/dispatch/dispatcher.py:134-246 | every step of any dispatcher, sweeper, crash or lock loss keeps the protocol invariant |
| Dispatch.EffectsHappenAtMostOnce | control/yukti/dispatch/dispatcher.py:134-246 | in every reachable state, no effect exists without a committed intent, and keyed or never-retried actions have at most one resource and one message |
| Dispatch.EffectsHappenAtMostTwice | control/yukti/dispatch/dispatcher.py:286-301 | in every reachable state, however often an action was retried and whatever its first attempt sent, it has at most two resources, at most one until its key is on record at the vendor, and never more messages than resources |
| Dispatch.DispatchedMeansEffected | control/yukti/dispatch/dispatcher.py:134-246 | in every reachable state, an action marked dispatched has its resource and, if it is a message, was sent; exactly once if it is keyed or was never retried |
| Dispatch.MarksAreAnnounced | control/yukti/dispatch/dispatcher.py:190-209 | a dispatched mark, its audit row and its outbox row stand or fall together, once each unless retried |
| Dispatch.RetryIsSingleEffectExactlyWhenKeyed | control/yukti/approvals.py:222-242 | a first retry, sent with the row's key, of an action that reached the vendor stays single-effect if and only if the action had carried its fingerprint as vendor key |
| Dispatch.UnkeyedRetryChargesTwice | control/yukti/approvals.py:222-242 | an approved debit whose dispatcher crashed is charged twice by a retry |
| Dispatch.AttemptDoes | control/yukti/dispatch/tools.py:95-229 | what both calls of a first attempt make and where it ends follow exactly from what became of the calls, and nothing is done for any other action |
| Dispatch.AttemptEffects | control/yukti/dispatch/tools.py:95-229 | tool by tool, what a first attempt leaves at the vendor: nothing if its request never arrived; otherwise a charge for a retry on the mandate rail or a scheduled debit, a call, or a link, and for a message or an offer the notification over WhatsApp, SMS or email if it was reached |
| Dispatch.FailedEffectExactlyWhenCutShort | control/yukti/dispatch/dispatcher.py:151-188 | after a whole first attempt the action is marked failed with its resource made if and only if the first reply was lost or the notification that followed was not answered; rejected with its resource made if and only if no channel could carry the link; and failed with its message sent if and only if the notification's reply was lost |
| Dispatch.FailedMessageExactlyWhenReplyLost | control/yukti/dispatch/dispatcher.py:151-188 | a message marked failed on its first attempt has reached the customer if and only if the reply was lost |
| Dispatch.LostReplyLeavesAnUncountedCall | control/yukti/dispatch/dispatcher.py:151-188 | a run in which the customer was called, the row is failed and the audit knows nothing of it |
| Dispatch.Dispatcher.Dispatch | control/yukti/dispatch/dispatcher.py:134-212 | one dispatch is a duplicate exactly when the lock or the key is taken; otherwise the effects it leaves, the row, the audit and the outcome are, kind by kind, those the fates of its two calls determine; with both answered, a message or offer is sent, once, exactly if its channel is WhatsApp, SMS or email and is rejected unsent otherwise; the lock is returned |
| Outbox.NoRowIsHeldTwice | control/yukti/dispatch/outbox.py:59-109 | in every run of relays and crashes no row is held by two relays, only committed unpublished rows are held, and an acknowledged record is on its topic |
| Outbox.ClaimsOldestFirst | control/yukti/dispatch/outbox.py:63-73 | a claim never skips an older free row for a newer one |
| Outbox.ClaimableIsOldestFree | control/yukti/dispatch/outbox.py:63-73 | what can be claimed is exactly the first free rows in order, as many as the batch holds or all there are |
| Outbox.CompleteFlushesLoseNothing | control/yukti/dispatch/outbox.py:59-109 | if flushes complete, every committed row is unpublished or on its topic in every reachable state |
| Outbox.SilentTimeoutLosesARow | control/yukti/dispatch/outbox.py:90-109 | after a flush that returned with nothing reported the row is published and on no topic; if its record is then given up, no later run puts it there |
| Outbox.LostForGood | control/yukti/dispatch/outbox.py:63-109 | a row that is published, on no topic and no longer in flight stays so whatever relays do next |
| Outbox.OutboxRelay.Drain | control/yukti/dispatch/outbox.py:59-109 | one drain publishes exactly the claimed batch or, after an error, nothing; the topic gains exactly the stored records; and nothing published is missing from it if and only if the drain failed or the flush left no record outstanding that was not already there |
| Outbox.OutboxRelay.DrainAll | control/yukti/dispatch/outbox.py:111-119 | that many drains in a row each published their whole batch, and the one after them, if it came to that, published nothing, with exactly its rows reported failed and still to claim; the total counts every row newly published once |
| Opportunity.IngestKeeps | control/yukti/opportunity/service.py:125-216 | whatever arrives, an obligation has at most one live case, arms are what the split says, and closed cases stay closed |
| Opportunity.CaptureCloses | control/yukti/opportunity/service.py:194-206 | a new, complete capture recovers exactly the cases that were live for its obligation, each one version on, leaves none live, changes no other, and is reported resolved if and only if there was one |
| Opportunity.FailureOpens | control/yukti/opportunity/service.py:145-192 | a new, complete failure opens one case, open and in the arm of its customer, if and only if its obligation is known and open, the event is at most one version behind, and no case is live for it; otherwise no case changes and the verdict says which of these it was |
| Opportunity.OldNewsIsHarmless | control/yukti/opportunity/service.py:125-143 | any other event changes no case, and is ignored, a duplicate or malformed exactly as its kind, id and history say |
| Opportunity.HoldoutShareIsExact | control/yukti/opportunity/service.py:208-216 | a holdout of so many percent takes exactly that share of every ten thousand hash values |
| Opportunity.RedeliveryIsANoOp | control/yukti/opportunity/service.py:103-143 | redelivering any event of an ingested log changes nothing |
| Opportunity.ReplayIsANoOp | control/yukti/opportunity/service.py:103-143 | replaying any prefix of an ingested log changes nothing |
| Opportunity.ExactlyOnceEffect | control/yukti/opportunity/service.py:125-206 | ingesting a log with redeliveries has the effect of applying each event's first well-formed delivery with no dedup at all |
| Consumer.LossesHappen | control/yukti/opportunity/consumer.py:82-110 | a rebalance reads again from the committed offset, a crash also drops the open transaction but not the cache |
| Consumer.StepKeeps | control/yukti/opportunity/consumer.py:164-248 | every safe step keeps the committed tables and the open transaction equal to folds of log prefixes that cover the offsets |
| Consumer.DurableIngestLosesNothing | control/yukti/opportunity/consumer.py:164-248 | with the durable layer alone and no bad record, every run leaves the tables at the fold of a prefix covering the committed offset |
| Consumer.OrderlyRunsStayCovered | control/yukti/opportunity/consumer.py:164-248 | with the cache and bad records too, a run whose crashes and bad records are each safe where they happen keeps the tables at the fold of a prefix that the committed offset never passes |
| Replay.BadRecordIsSafeExactlyWhenBatchDidNothing | control/yukti/opportunity/consumer.py:195-233 | after a quarantined record and the next offset commit, consuming the rest of a log in which no id repeats and no bad record follows ends with every event in place if and only if the open transaction equalled the committed tables |
| Replay.BadRecordLosesABatch | control/yukti/opportunity/consumer.py:195-233 | a bad record behind an uncommitted failure: the offset passes both and no case exists |
| Replay.CrashIsSafeExactlyWhenNoKeyIsOrphaned | control/yukti/opportunity/service.py:103-112 | after a crash, replay restores every event if and only if the cache holds no key of a rolled-back event still to come |
| Replay.OrphanedKeyLosesAnEvent | control/yukti/opportunity/service.py:103-112 | a crash between the cache write and the commit loses the event |
| Consumer.ConsumerLoop.Consume | control/yukti/opportunity/consumer.py:164-248 | the polling loop takes every message polled while records are left, is a run of the step system, and ends with the batch committed and the offset at the read position; if none of the records is bad and the cache is honest, the tables hold exactly what the records amount to; every message is counted, and without malformed ones the cases opened are those counted |
| Recovery.StepKeeps | control/yukti/pipeline.py:724-790 | every step of ingest, planning, review, sweep and capture keeps holdout containment |
| Recovery.ActLeaves | control/yukti/pipeline.py:724-790 | acting on a loaded live case moves it and its version, case by case: held out, back to open when blocked, escalated with its proposal when held, and only otherwise an action row |
| Recovery.StopAndAwaitLeave | control/yukti/pipeline.py:596-621 | a stop ends a live case, and a case waits for its outcome exactly when something was sent for it |
| Recovery.ReviewLeaves | control/yukti/approvals.py:125-262 | a rejection stops the case, and an approval adds the dispatcher's row unless the recheck blocks it |
| Recovery.AttributionLeaves | control/yukti/experiment/attribution.py:53-102 | a capture is credited only to a sent action of its own case, and credit on a held-out case raises the alarm and records nothing |
| Recovery.StoppedIsFinal | control/migrations/002_recovery.sql:29-34 | in every run a stopped case stays stopped, whoever writes it and whatever is captured |
| Recovery.LoadsTheOpenCases | control/yukti/intelligence/features.py:232-290 | a planner loads exactly the open and half-planned cases of its merchant, each with its arm |
| Recovery.HoldoutIsNeverTreated | control/yukti/experiment/attribution.py:53-102 | in every run a held-out case has no action row, is never escalated or awaiting an outcome, recovers only organically, and the contamination check never fires |
| Recovery.CustomersShareAnArm | control/yukti/opportunity/service.py:163-216 | in every run all of a customer's cases at a merchant share an arm |
| Recovery.RecordsOnceExactlyWhenNobodyLandsBetween | control/yukti/experiment/attribution.py:105-128 | whatever happens between a recorder's check and its insert, the case ends with one outcome plus one for every other recorder of the case that landed between |
| Recovery.SerialRecordingCountsOnce | control/yukti/experiment/attribution.py:105-128 | recording captures one at a time, a case gets at most one outcome however often its capture is redelivered |
| Recovery.TwoRecordersCountTwice | control/yukti/experiment/attribution.py:112-128 | from an empty case table, two recorders that both check before either inserts count the same capture twice |
| Recovery.EscalationsHaveProposals | control/yukti/approvals.py:86-102 | in every run an escalated case carries the decision that escalated it |
| Recovery.Desk.Decide | control/yukti/approvals.py:125-262 | a decision is refused exactly when unnamed, not escalated, without a proposal or no longer permitted, and then changes neither tables nor actions; a rejection moves the case to stopped, one version on, and sends nothing; an approval adds the one row the dispatcher made, for a treated case, and moves the case to awaiting its outcome exactly if that was sent |
| AuditChain.AuditTable.Append | control/yukti/audit.py:68-108 | an append extends one merchant's chain by one linked row and leaves every chain intact |
| AuditChain.AuditTable.Verify | control/yukti/audit.py:126-156 | verification is exact and names the first row that does not verify and why |
| AuditChain.TipCommitsToHistory | control/yukti/audit.py:62-108 | two intact chains with equal tip hash are equal row for row |
| AuditChain.ReshufflingShowsUnlessPrefix | control/yukti/audit.py:126-156 | deleting, repeating or reordering rows goes unnoticed if and only if a prefix is left |
| AuditChain.ReshufflingShowsAtFirstDifference | control/yukti/audit.py:126-156 | verification stops at the first row that is not the original one |
| AuditChain.DeletionShows | control/yukti/audit.py:126-156 | cutting out a block with rows after it breaks the chain right after the cut |
| AuditChain.EditsShowAtFirstEdit | control/yukti/audit.py:126-156 | editing content without rehashing is reported at the first edited row |

## Left out

- Floating point: multipliers, densities and rounding are over the reals, so the slack that absorbs float noise in the dual (control/yukti/allocator/lagrangian.py:82-84) has no counterpart; float log rounding and bisection ties are not modelled.
- Passing lists by reference: passes that append to or rebind the caller's list return the new list instead; object identity is a field of the candidate.
- Allocate.Allocate: assumes contacts of 0 or 1, nonnegative discounts and budgets, and that equal identities are one object; these hold of every caller.
- Bisection.Bisect: does not say that the price is the smallest one, which the code does not guarantee because use need not fall as the price rises.
- Streaming.StreamingIsSafe: does not compare the stream with the batch heuristics, only with the true optimum; utilisation, the admission-gap report and building prices from a batch are left out.
- BudgetLedger.NoInterleavingOverspends: each statement is one atomic step; row locking inside the database is not modelled.
- PlanCycle.Plan: stopping decisions, scores, agent advice and all policy rules but the two spelled out are inputs; the cycle runs with nobody else planning the merchant, and rows of agent decisions, evaluations and runs are not modelled.
- WeeklyCap.CapHoldsInEveryWindow: counts what is marked dispatched, as the code does, so a contact whose reply was lost is not in it; an approval counts as a cycle with one contact; a pending row dispatched by a sweeper long after its creation is not counted as the approval path would count it.
- Dispatch.EffectsHappenAtMostOnce: the sweeper that retries pending rows is described by the repository but not part of it; it appears as an environment step that sends the row's key, as the dispatcher's notes describe. The status `skipped` is unreachable because every tool reports that it executed.
- Dispatch.Dispatcher.Dispatch: fingerprints are taken to be collision-free; vendor webhooks, scheduled outcomes and failure injection are not modelled.
- Outbox.CompleteFlushesLoseNothing: one topic; records of a crashed relay are not in flight afterwards; the broker's own durability and ordering are taken for granted.
- Consumer.DurableIngestLosesNothing: one partition and one live consumer at a time; foreign-key failures and unparsable timestamps or versions, which end the process, are crashes; the dead-letter queue is write-only.
- Recovery.HoldoutIsNeverTreated: the exploration history, the reset commands and the evaluation harness, which rewrite case tables, are not modelled. Case writes do not consult the transition table, as in the code: an approval moves an escalated case straight to awaiting its outcome, which the table does not list.
- Recovery.RecordsOnceExactlyWhenNobodyLandsBetween: attribution windows only narrow which action may be credited; any action of the case may be.
- AuditChain.TipCommitsToHistory: the canonical form and the digest are taken to be injective.
- Models, features, bootstrap and power analysis, language-model agents, console, edge service, data generators and individual regulatory rules are not part of this model.
