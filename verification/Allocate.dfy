/**
 `allocate`: price both budgets, select, trim, fill, compare with the density greedy,
 exchange, add the costless actions, and certify the result against the dual.
*/
module Allocate {
  import opened Candidates
  import opened Sorting
  import opened Selection
  import opened RunningState
  import opened Passes
  import opened Exchange
  import opened Costless
  import opened Bisection
  import opened Certificate

  const ROUNDS := 4

  datatype Allocation = Allocation(
    chosen: seq<Candidate>,
    totalMargin: int,
    contactsUsed: int,
    discountUsed: int,
    price: Price,
    dualBound: real,
    costlessMargin: int)
  {
    /** Achieved margin over the dual bound. */
    function OptimalityRatio(): real {
      if dualBound <= 0.0 then 1.0
      else if totalMargin as real / dualBound > 1.0 then 1.0
      else totalMargin as real / dualBound
    }

    function PlannedMargin(): int {
      totalMargin + costlessMargin
    }
  }

  datatype Outcome = Allocated(plan: Allocation) | Uncertified(price: Price, dual: real, margin: int) {
    function Prices(): Price {
      if Allocated? then plan.price else price
    }
  }

  /** Neither budget binds when nothing is charged for. */
  ghost predicate Slack(candidates: seq<Candidate>, b: Budgets) {
    WithinBudgets(Selected(candidates, b.perCustomer, FREE), b)
  }

  /** What the merchant authorised holds, and the totals account for the whole list. */
  ghost predicate Accounted(plan: Allocation, funded: seq<Candidate>, candidates: seq<Candidate>, b: Budgets) {
    && funded <= plan.chosen
    && Feasible(plan.chosen, b) && From(plan.chosen, candidates)
    && Feasible(funded, b) && Profitable(funded)
    && plan.contactsUsed == Total(Contacts, plan.chosen)
    && plan.discountUsed == Total(Discount, plan.chosen)
    && plan.totalMargin == Total(Margin, funded)
    && plan.PlannedMargin() == Total(Margin, plan.chosen)
  }

  /** The priced selection, trimmed of contacts, then of discount, then filled. */
  function RelaxedPlan(candidates: seq<Candidate>, b: Budgets, p: Price): seq<Candidate> {
    var selected := Selected(candidates, b.perCustomer, p);
    Filled(Trims(Trims(selected, Contacts, b.contacts), Discount, b.discount), candidates, b)
  }

  /** The knapsack part beats both heuristics it started from. */
  ghost predicate BeatsHeuristics(margin: int, candidates: seq<Candidate>, b: Budgets, p: Price) {
    && margin >= Total(Margin, GreedyPlan(candidates, b))
    && margin >= Total(Margin, RelaxedPlan(candidates, b, p))
  }

  /** The ratio is exactly the share of the bound that was achieved, and 1 where there is nothing to achieve. */
  ghost predicate Rated(plan: Allocation) {
    && plan.totalMargin as real <= plan.dualBound
    && (plan.dualBound > 0.0 ==> plan.OptimalityRatio() * plan.dualBound == plan.totalMargin as real)
    && (plan.dualBound <= 0.0 ==> plan.OptimalityRatio() == 1.0)
  }

  /** What an allocation reports: the plan that was funded, the costless actions added to it, and its certificate. */
  ghost predicate Reports(r: Outcome, funded: seq<Candidate>, candidates: seq<Candidate>, b: Budgets) {
    && (r.Uncertified? <==> Dual(candidates, b, r.Prices()) < Total(Margin, funded) as real)
    && (r.Uncertified? ==>
          && r.dual == Dual(candidates, b, r.price) && PricedBound(r.dual, candidates, b, r.price)
          && r.margin == Total(Margin, funded) && r.dual < r.margin as real)
    && (r.Allocated? ==>
          && Accounted(r.plan, funded, candidates, b) && Rated(r.plan)
          && r.plan.dualBound == Dual(candidates, b, r.plan.price)
          && PricedBound(r.plan.dualBound, candidates, b, r.plan.price)
          && (forall c :: c in r.plan.chosen[|funded|..] ==> BestFree(c, funded, candidates))
          && (forall c :: c in candidates && Free(c) ==> !Empty(r.plan.chosen, c.caseId)))
  }

  /** What allocating guarantees, whatever the candidates. */
  ghost predicate Solves(r: Outcome, funded: seq<Candidate>, swaps: nat, candidates: seq<Candidate>, b: Budgets) {
    && Feasible(funded, b) && Profitable(funded) && From(funded, candidates)
    && r.Prices().NonNegative() && (Slack(candidates, b) ==> r.Prices() == FREE)
    && BeatsHeuristics(Total(Margin, funded), candidates, b, r.Prices())
    && (swaps < 4 && |candidates| <= 32 ==> LocallyOptimal(funded, candidates, b))
    && Reports(r, funded, candidates, b)
  }

  lemma {:induction false} ProfitIsPositive(s: seq<Candidate>)
    requires Profitable(s)
    ensures Total(Margin, s) >= 0
  {
    if s != [] {
      assert s[|s| - 1] in s;
      assert forall c :: c in s[..|s| - 1] ==> c in s;
      ProfitIsPositive(s[..|s| - 1]);
    }
  }

  lemma ClearingIsProfit(p: Price, c: Candidate)
    requires p.NonNegative() && p.Clears(c)
    ensures c.margin > 0
  {
    PriceExceeds(p.contact, c.contacts);
    PriceExceeds(p.discount, c.discount);
  }

  lemma UsageIsTotal(candidates: seq<Candidate>, b: Budgets)
    ensures Slack(candidates, b) <==>
              Usage(candidates, b, ContactBudget, 0.0, 0.0) <= b.contacts
              && Usage(candidates, b, DiscountBudget, 0.0, 0.0) <= b.discount
  {
  }

  /** No margin passes the price at which the search gives up. */
  ghost predicate WithinCeiling(candidates: seq<Candidate>) {
    forall c :: c in candidates ==> c.margin as real <= CEILING
  }

  /** One round: the contact price settles against the last discount price, then the other way round. */
  ghost predicate Round(candidates: seq<Candidate>, b: Budgets, before: Price, after: Price) {
    && (exists lo :: Settles(candidates, b, ContactBudget, before.discount, lo, after.contact))
    && (exists lo :: Settles(candidates, b, DiscountBudget, after.contact, lo, after.discount))
  }

  ghost predicate Rounds(candidates: seq<Candidate>, b: Budgets, trail: seq<Price>) {
    forall r :: 0 < r < |trail| ==> Round(candidates, b, trail[r - 1], trail[r])
  }

  lemma {:induction false} RoundsGrow(candidates: seq<Candidate>, b: Budgets, trail: seq<Price>, p: Price)
    requires trail != [] && Rounds(candidates, b, trail) && Round(candidates, b, trail[|trail| - 1], p)
    ensures Rounds(candidates, b, trail + [p])
  {
    forall r | 0 < r < |trail + [p]| ensures Round(candidates, b, (trail + [p])[r - 1], (trail + [p])[r]) {
      assert r < |trail| ==> Round(candidates, b, trail[r - 1], trail[r]);
    }
  }

  /** Prices contacts, then discount. */
  method OneRound(candidates: seq<Candidate>, b: Budgets, before: Price) returns (after: Price)
    requires before.NonNegative()
    ensures after.NonNegative() && Round(candidates, b, before, after)
    ensures Slack(candidates, b) && before == FREE ==> after == FREE
    ensures WithinCeiling(candidates) ==> Total(Discount, Selected(candidates, b.perCustomer, after)) <= b.discount
  {
    UsageIsTotal(candidates, b);
    var contact, discount;
    ghost var low;
    contact, low := Bisect(candidates, b, before.discount, ContactBudget);
    assert exists lo :: Settles(candidates, b, ContactBudget, before.discount, lo, contact);
    discount, low := Bisect(candidates, b, contact, DiscountBudget);
    after := Price(contact, discount);
  }

  /** Alternates between the two prices four times, since pricing one budget changes the other's use. */
  method Prices(candidates: seq<Candidate>, b: Budgets) returns (p: Price, ghost trail: seq<Price>)
    ensures p.NonNegative()
    ensures |trail| == 5 && trail[0] == FREE && trail[4] == p && Rounds(candidates, b, trail)
    ensures Slack(candidates, b) ==> p == FREE
    ensures WithinCeiling(candidates) ==> Total(Discount, Selected(candidates, b.perCustomer, p)) <= b.discount
  {
    p, trail := FREE, [FREE];
    var round := 0;
    while round < ROUNDS
      invariant 0 <= round <= ROUNDS && p.NonNegative()
      invariant |trail| == round + 1 && trail[0] == FREE && trail[round] == p
      invariant Rounds(candidates, b, trail)
      invariant Slack(candidates, b) ==> p == FREE
      invariant round > 0 && WithinCeiling(candidates) ==>
                  Total(Discount, Selected(candidates, b.perCustomer, p)) <= b.discount
    {
      p := OneRound(candidates, b, p);
      RoundsGrow(candidates, b, trail, p);
      trail := trail + [p];
      round := round + 1;
    }
  }

  lemma FilledFrom(chosen: seq<Candidate>, candidates: seq<Candidate>, b: Budgets)
    requires Identified(candidates) && From(chosen, candidates)
    requires Feasible(chosen, b) && Profitable(chosen)
    ensures var filled := Filled(chosen, candidates, b);
            Feasible(filled, b) && Profitable(filled) && From(filled, candidates) && Maximal(filled, candidates, b)
  {
    assert forall c :: c in chosen + candidates ==> c in candidates;
    FilledIsMaximal(chosen, candidates, b);
  }

  lemma TrimmedSelection(candidates: seq<Candidate>, b: Budgets, p: Price, once: seq<Candidate>, twice: seq<Candidate>)
    requires p.NonNegative()
    requires multiset(once) <= multiset(Selected(candidates, b.perCustomer, p)) && multiset(twice) <= multiset(once)
    requires Total(Contacts, once) <= b.contacts && Total(Discount, twice) <= b.discount
    ensures Feasible(twice, b) && Profitable(twice) && From(twice, candidates)
  {
    SelectedAdmissible(candidates, b.perCustomer, p);
    PartFeasible(once, Selected(candidates, b.perCustomer, p), b.perCustomer);
    PartFeasible(twice, once, b.perCustomer);
    forall c | c in twice ensures c.margin > 0 {
      assert c in once;
      ClearingIsProfit(p, c);
    }
  }

  /** With the final prices the discount budget already holds, so only contacts can need trimming. */
  lemma OnlyContactsNeedTrimming(candidates: seq<Candidate>, b: Budgets, p: Price)
    requires Total(Discount, Selected(candidates, b.perCustomer, p)) <= b.discount
    ensures var selected := Selected(candidates, b.perCustomer, p);
            RelaxedPlan(candidates, b, p) == Filled(Trims(selected, Contacts, b.contacts), candidates, b)
  {
    var selected := Selected(candidates, b.perCustomer, p);
    TrimsArePart(selected, Contacts, b.contacts);
    PartTotal(Discount, Trims(selected, Contacts, b.contacts), selected);
  }

  lemma {:induction false} TrimsArePart(s: seq<Candidate>, resource: Measure, limit: nat)
    ensures multiset(Trims(s, resource, limit)) <= multiset(s)
    decreases |s|
  {
    var worst := Cheapest(s, resource);
    if Total(resource, s) > limit && worst < |s| {
      DropMultiset(s, worst);
      TrimsArePart(Drop(s, worst), resource, limit);
    }
  }

  /** The priced selection, trimmed to its budgets and filled. */
  method Relaxed(candidates: seq<Candidate>, b: Budgets, p: Price) returns (chosen: seq<Candidate>)
    requires p.NonNegative() && Identified(candidates)
    ensures Feasible(chosen, b) && Profitable(chosen) && From(chosen, candidates)
    ensures Maximal(chosen, candidates, b)
    ensures chosen == RelaxedPlan(candidates, b, p)
  {
    chosen := Select(candidates, b, p);
    var once := Trim(chosen, Contacts, b.contacts);
    var twice := Trim(once, Discount, b.discount);
    TrimmedSelection(candidates, b, p, once, twice);
    FilledFrom(twice, candidates, b);
    chosen := Fill(twice, candidates, b);
  }

  lemma NothingToFund(b: Budgets, p: Price)
    ensures GreedyPlan([], b) == [] && RelaxedPlan([], b, p) == []
    ensures Dual([], b, FREE) == 0.0
  {
  }

  /** The better of the two heuristics. */
  method BestHeuristic(candidates: seq<Candidate>, b: Budgets, p: Price) returns (chosen: seq<Candidate>)
    requires p.NonNegative() && Identified(candidates)
    ensures Feasible(chosen, b) && Profitable(chosen) && From(chosen, candidates)
    ensures BeatsHeuristics(Total(Margin, chosen), candidates, b, p)
  {
    chosen := Relaxed(candidates, b, p);
    var greedy := Greedy(candidates, b);
    GreedyPlanFeasible(candidates, b);
    FillingGreedyAddsNothing(candidates, b);
    greedy := Fill(greedy, candidates, b);
    if Total(Margin, greedy) > Total(Margin, chosen) {
      chosen := greedy;
    }
  }

  /** Costless actions extend the plan without touching what was budgeted. */
  lemma CostlessExtension(funded: seq<Candidate>, chosen: seq<Candidate>, candidates: seq<Candidate>, b: Budgets)
    requires Feasible(funded, b) && From(funded, candidates) && funded <= chosen && OnePerCase(chosen)
    requires forall c :: c in chosen[|funded|..] ==> BestFree(c, funded, candidates)
    ensures Feasible(chosen, b) && From(chosen, candidates)
    ensures Total(Contacts, chosen) == Total(Contacts, funded)
    ensures Total(Discount, chosen) == Total(Discount, funded)
    ensures Total(Margin, chosen) == Total(Margin, funded) + Total(Margin, chosen[|funded|..])
  {
    var added := chosen[|funded|..];
    assert chosen == funded + added;
    CostlessKeepsFeasible(funded, added, b);
    TotalConcat(Margin, funded, added);
  }

  /** Everything that competes for the budgets. */
  method Knapsack(candidates: seq<Candidate>, b: Budgets, p: Price) returns (chosen: seq<Candidate>, ghost swaps: nat)
    requires p.NonNegative() && Identified(candidates)
    ensures Feasible(chosen, b) && Profitable(chosen) && From(chosen, candidates)
    ensures BeatsHeuristics(Total(Margin, chosen), candidates, b, p)
    ensures swaps < 4 && |candidates| <= 32 ==> LocallyOptimal(chosen, candidates, b)
  {
    chosen := BestHeuristic(candidates, b, p);
    assert forall c :: c in chosen + candidates ==> c in candidates;
    ghost var outside;
    chosen, outside, swaps := Improve(chosen, candidates, b);
    if swaps < MAX_SWAP_PASSES && |candidates| <= SWAP_WINDOW {
      PlanIsNoLonger(chosen, candidates);
      SettledMeansLocallyOptimal(chosen, outside, candidates, b);
    }
  }

  lemma RatedExactly(plan: Allocation)
    requires plan.totalMargin as real <= plan.dualBound
    ensures Rated(plan)
  {
    var total, bound := plan.totalMargin as real, plan.dualBound;
    if bound > 0.0 {
      assert total / bound * bound == total;
      if total / bound > 1.0 {
        assert (total / bound - 1.0) * bound > 0.0;
      }
    }
  }

  /** Adds the costless actions, totals the plan and certifies it. */
  method Report(candidates: seq<Candidate>, b: Budgets, p: Price, funded: seq<Candidate>) returns (r: Outcome)
    requires Feasible(funded, b) && Profitable(funded) && From(funded, candidates)
    ensures r.Prices() == p && Reports(r, funded, candidates, b)
  {
    var margin := Total(Margin, funded);
    var contacts := Total(Contacts, funded);
    var discount := Total(Discount, funded);

    var before := |funded|;
    var chosen := TakeCostless(funded, candidates);
    var costless := Total(Margin, chosen[before..]);
    CostlessExtension(funded, chosen, candidates, b);

    DualIsPricedBound(candidates, b, p);
    var certified := CertifiedDual(candidates, b, p, margin);
    if certified.DualBoundViolation? {
      return Uncertified(p, certified.dual, margin);
    }
    var bound := if certified.dual > margin as real then certified.dual else margin as real;
    r := Allocated(Allocation(chosen, margin, contacts, discount, p, bound, costless));
    RatedExactly(r.plan);
  }

  method Allocate(candidates: seq<Candidate>, b: Budgets)
      returns (r: Outcome, ghost funded: seq<Candidate>, ghost swaps: nat)
    requires Identified(candidates)
    ensures Solves(r, funded, swaps, candidates, b)
  {
    if candidates == [] {
      NothingToFund(b, FREE);
      DualIsPricedBound([], b, FREE);
      return Allocated(Allocation([], 0, 0, 0, FREE, 0.0, 0)), [], 0;
    }
    var p;
    ghost var trail;
    p, trail := Prices(candidates, b);
    var chosen;
    chosen, swaps := Knapsack(candidates, b, p);
    funded := chosen;
    r := Report(candidates, b, p, chosen);
  }

  /** With no crossing caps the allocation is always certified, and its bound is a bound. */
  lemma AllocationIsCertified(candidates: seq<Candidate>, b: Budgets, r: Outcome,
                              funded: seq<Candidate>, t: seq<Candidate>)
    requires NoCrossing(candidates, b.perCustomer) && CaseOwned(candidates)
    requires Feasible(funded, b) && From(funded, candidates) && r.Prices().NonNegative()
    requires r.Uncertified? <==> Dual(candidates, b, r.Prices()) < Total(Margin, funded) as real
    requires r.Allocated? ==> r.plan.dualBound == Dual(candidates, b, r.plan.price)
    requires Feasible(t, b) && From(t, candidates)
    ensures r.Allocated?
    ensures Total(Margin, t) as real <= r.plan.dualBound
  {
    DualBoundsEveryPlan(candidates, b, r.Prices(), funded);
    DualBoundsEveryPlan(candidates, b, r.Prices(), t);
  }

  lemma RatioNeverOverstates(plan: Allocation, optimum: int)
    requires optimum as real <= plan.dualBound && 0 <= plan.totalMargin && plan.totalMargin as real <= plan.dualBound
    ensures plan.OptimalityRatio() * optimum as real <= plan.totalMargin as real
  {
    var bound, total := plan.dualBound, plan.totalMargin as real;
    if bound > 0.0 {
      var ratio := total / bound;
      assert ratio * bound == total;
      assert (1.0 - ratio) * bound >= 0.0;
      assert 0.0 <= ratio <= 1.0;
      assert ratio * (bound - optimum as real) >= 0.0;
    }
  }

  lemma FillingOnlyAdds(chosen: seq<Candidate>, candidates: seq<Candidate>, b: Budgets)
    requires Identified(candidates) && From(chosen, candidates)
    requires Feasible(chosen, b) && Profitable(chosen)
    ensures Total(Margin, Filled(chosen, candidates, b)) >= Total(Margin, chosen)
  {
    FilledFrom(chosen, candidates, b);
    var more := TakeFittingExtends(Remaining(chosen, candidates), chosen, b);
    TotalConcat(Margin, chosen, more);
    ProfitIsPositive(more);
  }

  lemma SelectionWithinBudgets(candidates: seq<Candidate>, b: Budgets, p: Price)
    requires p.NonNegative() && WithinBudgets(Selected(candidates, b.perCustomer, p), b)
    ensures var s := Selected(candidates, b.perCustomer, p);
            Feasible(s, b) && Profitable(s) && From(s, candidates)
  {
    TrimmedSelection(candidates, b, p, Selected(candidates, b.perCustomer, p), Selected(candidates, b.perCustomer, p));
  }

  /** A selection within its budgets is not trimmed, and filling only adds to it. */
  lemma RelaxedAddsToSelection(candidates: seq<Candidate>, b: Budgets, p: Price)
    requires p.NonNegative() && Identified(candidates)
    requires WithinBudgets(Selected(candidates, b.perCustomer, p), b)
    ensures Total(Margin, RelaxedPlan(candidates, b, p)) >= Total(Margin, Selected(candidates, b.perCustomer, p))
  {
    SelectionWithinBudgets(candidates, b, p);
    FillingOnlyAdds(Selected(candidates, b.perCustomer, p), candidates, b);
  }

  /**
   If the selection at the returned prices keeps to the budgets and uses up every budget that
   has a price, the plan achieves its bound: the ratio is 1, and when nothing crosses no
   feasible plan is worth more.
  */
  lemma TightPricesSolveExactly(candidates: seq<Candidate>, b: Budgets, plan: Allocation, funded: seq<Candidate>)
    requires Identified(candidates) && plan.price.NonNegative()
    requires UsesUp(Selected(candidates, b.perCustomer, plan.price), b, plan.price)
    requires Rated(plan) && plan.totalMargin == Total(Margin, funded) && Profitable(funded)
    requires PricedBound(plan.dualBound, candidates, b, plan.price)
    requires BeatsHeuristics(plan.totalMargin, candidates, b, plan.price)
    ensures plan.dualBound == plan.totalMargin as real && plan.OptimalityRatio() == 1.0
    ensures NoCrossing(candidates, b.perCustomer) && CaseOwned(candidates) ==>
              forall t :: Feasible(t, b) && From(t, candidates) ==> Total(Margin, t) <= plan.totalMargin
  {
    SelectionMeetsTheBound(candidates, b, plan.price, plan.dualBound);
    RelaxedAddsToSelection(candidates, b, plan.price);
    MetBoundRatesFull(plan);
    if NoCrossing(candidates, b.perCustomer) && CaseOwned(candidates) {
      forall t | Feasible(t, b) && From(t, candidates) ensures Total(Margin, t) <= plan.totalMargin {
        SelectionIsBest(candidates, b, plan.price, t);
      }
    }
  }

  lemma MetBoundRatesFull(plan: Allocation)
    requires plan.totalMargin as real == plan.dualBound
    ensures plan.OptimalityRatio() == 1.0
  {
  }

  lemma DualCovers(candidates: seq<Candidate>, b: Budgets, p: Price, t: seq<Candidate>, bound: real)
    requires NoCrossing(candidates, b.perCustomer) && CaseOwned(candidates) && p.NonNegative()
    requires bound == Dual(candidates, b, p) && Feasible(t, b) && From(t, candidates)
    ensures Total(Margin, t) as real <= bound
  {
    DualBoundsEveryPlan(candidates, b, p, t);
  }

  /** The reported ratio never exceeds what the plan achieves of the true optimum. */
  lemma RatioIsSound(candidates: seq<Candidate>, b: Budgets, plan: Allocation, funded: seq<Candidate>,
                     t: seq<Candidate>)
    requires NoCrossing(candidates, b.perCustomer) && CaseOwned(candidates)
    requires Accounted(plan, funded, candidates, b) && plan.price.NonNegative()
    requires plan.dualBound == Dual(candidates, b, plan.price)
    requires Feasible(t, b) && From(t, candidates)
    ensures plan.OptimalityRatio() * Total(Margin, t) as real <= plan.totalMargin as real
  {
    assert Total(Margin, t) as real <= plan.dualBound by {
      DualCovers(candidates, b, plan.price, t, plan.dualBound);
    }
    assert plan.totalMargin as real <= plan.dualBound by {
      DualCovers(candidates, b, plan.price, funded, plan.dualBound);
    }
    ProfitIsPositive(funded);
    RatioNeverOverstates(plan, Total(Margin, t));
  }

  // An instance whose caps cross

  const MESSAGE := Candidate(0, 0, 0, ActionKind.Message, WhatsApp, 1000, 1, 0, 75)
  const RETRY := Candidate(1, 0, 0, SilentRetry, NoChannel, 900, 0, 0, 0)
  const SECOND := Candidate(2, 1, 0, ActionKind.Message, WhatsApp, 800, 1, 0, 75)
  const CROSSED := [MESSAGE, RETRY, SECOND]
  const AMPLE := Budgets(10, 0, 1)

  lemma CrossedSelection()
    ensures Selected(CROSSED, 1, FREE) == [MESSAGE] && Slack(CROSSED, AMPLE)
    ensures Dual(CROSSED, AMPLE, FREE) == 1000.0
  {
    assert MESSAGE in CROSSED;
    SelectsAlone(CROSSED, MESSAGE);
    FreeDual(CROSSED, AMPLE, MESSAGE);
    TotalAppend(Contacts, [], MESSAGE);
    TotalAppend(Discount, [], MESSAGE);
    assert [] + [MESSAGE] == [MESSAGE];
  }

  lemma CrossedOrder()
    ensures ByDensityOrder(CROSSED) == [RETRY, MESSAGE, SECOND]
  {
    FilterKeepsAll(Outstanding({}), CROSSED);
    assert ByDensity(RETRY) == Infinite && ByDensity(MESSAGE) == Finite(1000.0) && ByDensity(SECOND) == Finite(800.0);
    SortThree(ByDensity, MESSAGE, RETRY, SECOND);
  }

  lemma CrossedTake()
    ensures TakeFitting([RETRY, MESSAGE, SECOND], [], AMPLE) == [RETRY, SECOND]
  {
    assert [RETRY, MESSAGE, SECOND][1..] == [MESSAGE, SECOND] && [MESSAGE, SECOND][1..] == [SECOND];
    assert Fits([], RETRY, AMPLE) && [] + [RETRY] == [RETRY];
    forall m: Measure ensures Total(m, [RETRY]) == m.Of(RETRY) {
      TotalAppend(m, [], RETRY);
    }
    assert !Fits([RETRY], MESSAGE, AMPLE);
    assert Fits([RETRY], SECOND, AMPLE);
    assert [RETRY] + [SECOND] == [RETRY, SECOND];
    assert TakeFitting([SECOND], [RETRY], AMPLE) == [RETRY, SECOND];
  }

  lemma CrossedGreedy()
    ensures Total(Margin, GreedyPlan(CROSSED, AMPLE)) == 1700
  {
    CrossedOrder();
    CrossedTake();
    TotalOfTwo(Margin, RETRY, SECOND);
  }

  lemma CrossedIdentified()
    ensures Identified(CROSSED)
  {
  }

  lemma CrossedMustRaise(r: Outcome, funded: seq<Candidate>, swaps: nat)
    requires Solves(r, funded, swaps, CROSSED, AMPLE)
    ensures r.Uncertified? && r.dual == 1000.0 && r.margin >= 1700
  {
    CrossedSelection();
    CrossedGreedy();
  }

  /** On that instance the planner raises although nothing about the data is wrong. */
  method CrossedInstanceRaises() returns (r: Outcome)
    ensures r.Uncertified? && r.dual == 1000.0 && r.margin >= 1700
  {
    CrossedIdentified();
    ghost var funded, swaps;
    r, funded, swaps := Allocate(CROSSED, AMPLE);
    CrossedMustRaise(r, funded, swaps);
  }
}
