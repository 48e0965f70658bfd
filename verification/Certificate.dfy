/**
 `_certified_dual`: the Lagrangian dual that certifies an allocation.

 The dual charges every candidate the multipliers, selects greedily and adds the price of
 the whole budget. It bounds every feasible list as long as no caps cross; with crossing
 caps the selected part has to be counted twice. Both directions are proved, for each number
 of contacts a customer may get: if caps cross, some margins make the dual fall below a
 feasible list, and then the check raises.
*/
module Certificate {
  import opened Candidates
  import opened Selection
  import opened Sorting

  datatype Certified = Bound(dual: real) | DualBoundViolation(dual: real, margin: int)

  /** What the whole budget costs at the multipliers. */
  function BudgetPrice(p: Price, b: Budgets): real {
    p.contact * b.contacts as real + p.discount * b.discount as real
  }

  function Dual(candidates: seq<Candidate>, b: Budgets, p: Price): real {
    Worth(p, Selected(candidates, b.perCustomer, p)) + BudgetPrice(p, b)
  }

  function CertifiedDual(candidates: seq<Candidate>, b: Budgets, p: Price, margin: int): Certified {
    var dual := Dual(candidates, b, p);
    if dual < margin as real then DualBoundViolation(dual, margin) else Bound(dual)
  }

  lemma MulMonotone(a: real, x: int, y: int)
    requires a >= 0.0 && x <= y
    ensures a * x as real <= a * y as real
  {
    assert a * (y - x) as real >= 0.0;
    assert a * y as real == a * x as real + a * (y - x) as real;
  }

  lemma DrawsWithinPrice(p: Price, b: Budgets, contacts: int, discount: int)
    requires p.NonNegative() && contacts <= b.contacts && discount <= b.discount
    ensures p.contact * contacts as real + p.discount * discount as real <= BudgetPrice(p, b)
  {
    MulMonotone(p.contact, contacts, b.contacts);
    MulMonotone(p.discount, discount, b.discount);
  }

  /** Relaxing the budgets never costs a feasible list anything. */
  lemma MarginWithinPrice(p: Price, b: Budgets, t: seq<Candidate>)
    requires p.NonNegative() && WithinBudgets(t, b)
    ensures Total(Margin, t) as real <= Worth(p, t) + BudgetPrice(p, b)
  {
    var contacts, discount := Total(Contacts, t), Total(Discount, t);
    DrawsWithinPrice(p, b, contacts, discount);
    WorthIsPricedMargin(p, t);
  }

  /** Weak duality: with no crossing caps the dual bounds every feasible list. */
  lemma DualBoundsEveryPlan(candidates: seq<Candidate>, b: Budgets, p: Price, t: seq<Candidate>)
    requires p.NonNegative() && NoCrossing(candidates, b.perCustomer) && CaseOwned(candidates)
    requires Feasible(t, b) && From(t, candidates)
    ensures Dual(candidates, b, p) >= Total(Margin, t) as real
  {
    var selected := Selected(candidates, b.perCustomer, p);
    assert Worth(p, selected) >= Worth(p, t) by {
      SelectionIsOptimal(candidates, b.perCustomer, p, t);
    }
    MarginWithinPrice(p, b, t);
  }

  /** Without any assumption, counting the selected part twice gives a bound. */
  lemma DoubledDualBoundsEveryPlan(candidates: seq<Candidate>, b: Budgets, p: Price, t: seq<Candidate>)
    requires p.NonNegative()
    requires Feasible(t, b) && From(t, candidates)
    ensures Dual(candidates, b, p) + Worth(p, Selected(candidates, b.perCustomer, p)) >= Total(Margin, t) as real
  {
    var selected := Selected(candidates, b.perCustomer, p);
    assert 2.0 * Worth(p, selected) >= Worth(p, t) by {
      SelectionIsHalfOptimal(candidates, b.perCustomer, p, t);
    }
    MarginWithinPrice(p, b, t);
  }

  /** What is left of the budget is worth at the prices. */
  function SlackPrice(s: seq<Candidate>, b: Budgets, p: Price): real {
    p.contact * (b.contacts - Total(Contacts, s)) as real + p.discount * (b.discount - Total(Discount, s)) as real
  }

  /** A bound in plain terms: the margin of the priced selection, and what its unused budget is priced at. */
  ghost predicate PricedBound(bound: real, candidates: seq<Candidate>, b: Budgets, p: Price) {
    var s := Selected(candidates, b.perCustomer, p);
    bound - Total(Margin, s) as real == SlackPrice(s, b, p)
  }

  lemma Distribute(a: real, x: int, y: int)
    ensures a * (x - y) as real == a * x as real - a * y as real
  {
  }

  lemma {:induction false} WorthAndBudget(s: seq<Candidate>, b: Budgets, p: Price, bound: real)
    requires bound == Worth(p, s) + BudgetPrice(p, b)
    ensures bound - Total(Margin, s) as real == SlackPrice(s, b, p)
  {
    var contacts, discount := Total(Contacts, s), Total(Discount, s);
    WorthIsPricedMargin(p, s);
    Distribute(p.contact, b.contacts, contacts);
    Distribute(p.discount, b.discount, discount);
  }

  /** The dual is exactly that bound. */
  lemma {:induction false} DualIsPricedBound(candidates: seq<Candidate>, b: Budgets, p: Price)
    ensures PricedBound(Dual(candidates, b, p), candidates, b, p)
  {
    WorthAndBudget(Selected(candidates, b.perCustomer, p), b, p, Dual(candidates, b, p));
  }

  /** A list that keeps to the budgets and leaves nothing of a budget that has a price. */
  ghost predicate UsesUp(s: seq<Candidate>, b: Budgets, p: Price) {
    && WithinBudgets(s, b)
    && (p.contact > 0.0 ==> Total(Contacts, s) == b.contacts)
    && (p.discount > 0.0 ==> Total(Discount, s) == b.discount)
  }

  lemma NothingLeft(price: real, left: int)
    requires price == 0.0 || left == 0
    ensures price * left as real == 0.0
  {
  }

  lemma {:induction false} NoSlack(s: seq<Candidate>, b: Budgets, p: Price)
    requires p.NonNegative() && UsesUp(s, b, p)
    ensures SlackPrice(s, b, p) == 0.0
  {
    NothingLeft(p.contact, b.contacts - Total(Contacts, s));
    NothingLeft(p.discount, b.discount - Total(Discount, s));
  }

  /** Complementary slackness: then the bound is the selection's own margin. */
  lemma {:induction false} SelectionMeetsTheBound(candidates: seq<Candidate>, b: Budgets, p: Price, bound: real)
    requires p.NonNegative() && UsesUp(Selected(candidates, b.perCustomer, p), b, p)
    requires PricedBound(bound, candidates, b, p)
    ensures bound == Total(Margin, Selected(candidates, b.perCustomer, p)) as real
  {
    NoSlack(Selected(candidates, b.perCustomer, p), b, p);
  }

  /** And when nothing crosses it is the best feasible plan. */
  lemma {:induction false} SelectionIsBest(candidates: seq<Candidate>, b: Budgets, p: Price, t: seq<Candidate>)
    requires p.NonNegative() && UsesUp(Selected(candidates, b.perCustomer, p), b, p)
    requires NoCrossing(candidates, b.perCustomer) && CaseOwned(candidates)
    requires Feasible(t, b) && From(t, candidates)
    ensures Feasible(Selected(candidates, b.perCustomer, p), b)
    ensures Total(Margin, t) <= Total(Margin, Selected(candidates, b.perCustomer, p))
  {
    SelectedAdmissible(candidates, b.perCustomer, p);
    DualIsPricedBound(candidates, b, p);
    SelectionMeetsTheBound(candidates, b, p, Dual(candidates, b, p));
    DualBoundsEveryPlan(candidates, b, p, t);
  }

  // When the dual is a certificate

  /** The same actions on the same cases, worth something else. */
  ghost predicate Repriced(s: seq<Candidate>, t: seq<Candidate>) {
    |s| == |t| && forall i :: 0 <= i < |s| ==> t[i] == s[i].(margin := t[i].margin)
  }

  ghost predicate BoundHolds(candidates: seq<Candidate>, b: Budgets, p: Price, t: seq<Candidate>) {
    p.NonNegative() && Feasible(t, b) && From(t, candidates) ==> Dual(candidates, b, p) >= Total(Margin, t) as real
  }

  /** Under this contact cap the dual is a certificate for these actions, whatever they turn out to be worth. */
  ghost predicate AlwaysCertified(candidates: seq<Candidate>, cap: nat) {
    forall priced, b: Budgets, p, t ::
      Repriced(candidates, priced) && b.perCustomer == cap ==> BoundHolds(priced, b, p, t)
  }

  lemma {:induction false} TakeRefuses(xs: seq<Candidate>, chosen: seq<Candidate>, cap: nat)
    requires forall c :: c in xs ==> !Admits(chosen, c, cap)
    ensures Take(xs, chosen, cap) == chosen
    decreases |xs|
  {
    if xs != [] {
      assert forall c :: c in xs[1..] ==> c in xs;
      assert xs[0] in xs;
      TakeRefuses(xs[1..], chosen, cap);
    }
  }

  const FREE := Price(0.0, 0.0)

  lemma FreeReduces(c: Candidate)
    ensures FREE.Reduced(c) == c.margin as real
  {
  }

  lemma FreeOrder(x: Candidate, y: Candidate)
    ensures AtLeast(ByReduced(FREE)(x), ByReduced(FREE)(y)) <==> x.margin >= y.margin
    ensures FREE.Clears(x) <==> x.margin > 0
  {
    FreeReduces(x);
    FreeReduces(y);
  }

  lemma HeaviestComesFirst(priced: seq<Candidate>, top: Candidate)
    requires top in priced && top.margin > 0
    requires forall x :: x in priced && x != top ==> x.margin < top.margin
    ensures var scored := Scored(priced, FREE);
            && |scored| > 0 && scored[0] == top
            && forall x :: x in scored ==> x in priced && x.margin > 0
  {
    var scored := Scored(priced, FREE);
    ScoredElements(priced, FREE);
    forall x | x in scored ensures x in priced && x.margin > 0 {
      FreeOrder(x, top);
    }
    FreeOrder(top, top);
    assert top in scored;
    var i :| 0 <= i < |scored| && scored[i] == top;
    FreeOrder(scored[0], top);
    assert i > 0 ==> AtLeast(ByReduced(FREE)(scored[0]), ByReduced(FREE)(scored[i]));
    assert scored[0] in scored;
  }

  lemma RefusedBeside(top: Candidate, x: Candidate)
    requires top.contacts == 1 && (x.caseId == top.caseId || (x.customer == top.customer && x.contacts == 1))
    ensures !Admits([top], x, 1)
  {
    TotalAppend(InCase(x.caseId), [], top);
    TotalAppend(ContactsTo(x.customer), [], top);
    assert [] + [top] == [top];
  }

  /** If the heaviest action shuts out every other worthwhile one, it is selected alone. */
  lemma SelectsAlone(priced: seq<Candidate>, top: Candidate)
    requires top in priced && top.margin > 0 && top.contacts == 1
    requires forall x :: x in priced && x != top ==> x.margin < top.margin
    requires forall x :: x in priced && x.margin > 0 ==>
                           x.caseId == top.caseId || (x.customer == top.customer && x.contacts == 1)
    ensures Selected(priced, 1, FREE) == [top]
  {
    HeaviestComesFirst(priced, top);
    var scored := Scored(priced, FREE);
    assert Admits([], top, 1);
    assert [] + [top] == [top];
    forall x | x in scored[1..] ensures !Admits([top], x, 1) {
      assert x in scored;
      RefusedBeside(top, x);
    }
    TakeRefuses(scored[1..], [top], 1);
  }

  lemma TotalOfTwo(m: Measure, x: Candidate, y: Candidate)
    ensures Total(m, [x, y]) == m.Of(x) + m.Of(y)
  {
    assert [x, y] == [] + [x] + [y];
    TotalAppend(m, [], x);
    TotalAppend(m, [] + [x], y);
  }

  lemma FreeDual(candidates: seq<Candidate>, b: Budgets, top: Candidate)
    requires Selected(candidates, b.perCustomer, FREE) == [top]
    ensures Dual(candidates, b, FREE) == top.margin as real
  {
    assert [top] == [] + [top];
    WorthAppend(FREE, [], top);
    FreeReduces(top);
  }

  // When caps cross

  function Trap(a: Candidate, b: Candidate, others: seq<Candidate>, x: Candidate): Candidate {
    x.(margin := if x == a then 1000 else if x == b then 900 else if x in others then 800 else 0)
  }

  /** The same actions, with a worth 1000, b 900, the others 800 each and everything else nothing. */
  function Trapped(s: seq<Candidate>, a: Candidate, b: Candidate, others: seq<Candidate>): seq<Candidate> {
    seq(|s|, i requires 0 <= i < |s| => Trap(a, b, others, s[i]))
  }

  lemma TrappedElements(s: seq<Candidate>, a: Candidate, b: Candidate, others: seq<Candidate>, x: Candidate)
      returns (y: Candidate)
    requires x in Trapped(s, a, b, others)
    ensures y in s && x == Trap(a, b, others, y)
  {
    var i :| 0 <= i < |s| && Trapped(s, a, b, others)[i] == x;
    y := s[i];
  }

  lemma TrappedFrom(part: seq<Candidate>, s: seq<Candidate>, a: Candidate, b: Candidate, others: seq<Candidate>)
    requires From(part, s)
    ensures From(Trapped(part, a, b, others), Trapped(s, a, b, others))
    ensures forall x :: x in part ==> Trap(a, b, others, x) in Trapped(part, a, b, others)
  {
    forall x | x in Trapped(part, a, b, others) ensures x in Trapped(s, a, b, others) {
      var y := TrappedElements(part, a, b, others, x);
      var i :| 0 <= i < |s| && s[i] == y;
      assert Trapped(s, a, b, others)[i] == x;
    }
    forall x | x in part ensures Trap(a, b, others, x) in Trapped(part, a, b, others) {
      var i :| 0 <= i < |part| && part[i] == x;
      assert Trapped(part, a, b, others)[i] == Trap(a, b, others, x);
    }
  }

  /** Prices do not change what an action draws. */
  lemma {:induction false} RepricingKeepsTotals(s: seq<Candidate>, t: seq<Candidate>, m: Measure)
    requires Repriced(s, t) && !m.Margin?
    ensures Total(m, s) == Total(m, t)
  {
    if s != [] {
      RepricingKeepsTotals(s[..|s| - 1], t[..|t| - 1], m);
    }
  }

  lemma {:induction false} TakeKeeps(xs: seq<Candidate>, chosen: seq<Candidate>, cap: nat)
    ensures chosen <= Take(xs, chosen, cap)
    decreases |xs|
  {
    if xs != [] {
      TakeKeeps(xs[1..], if Admits(chosen, xs[0], cap) then chosen + [xs[0]] else chosen, cap);
    }
  }

  lemma HeaviestIsSelected(priced: seq<Candidate>, top: Candidate, cap: nat)
    requires cap >= 1 && top in priced && top.margin > 0 && top.contacts == 1
    requires forall x :: x in priced && x != top ==> x.margin < top.margin
    ensures |Selected(priced, cap, FREE)| > 0 && Selected(priced, cap, FREE)[0] == top
  {
    HeaviestComesFirst(priced, top);
    assert Admits([], top, cap) && [] + [top] == [top];
    TakeKeeps(Scored(priced, FREE)[1..], [top], cap);
  }

  lemma FirstOfItsCase(s: seq<Candidate>, silent: Candidate)
    requires s != [] && OnePerCase(s) && silent != s[0] && silent.caseId == s[0].caseId
    ensures silent !in s
  {
    assert Total(InCase(silent.caseId), s) <= 1;
    if silent in s {
      assert s == [s[0]] + Drop(s, 0);
      TotalDrop(InCase(silent.caseId), s, 0);
      TotalAtLeast(InCase(silent.caseId), Drop(s, 0), silent);
    }
  }

  /** The heaviest contact is selected, and so nothing else in its case is. */
  lemma HeaviestShutsOut(priced: seq<Candidate>, top: Candidate, silent: Candidate, cap: nat)
    requires cap >= 1 && top in priced && top.margin > 0 && top.contacts == 1
    requires forall x :: x in priced && x != top ==> x.margin < top.margin
    requires silent != top && silent.caseId == top.caseId
    ensures silent !in Selected(priced, cap, FREE)
  {
    HeaviestIsSelected(priced, top, cap);
    SelectedAdmissible(priced, cap, FREE);
    FirstOfItsCase(Selected(priced, cap, FREE), silent);
  }

  /** What contacts and one more action of a case can be worth, if that is what bounds each action. */
  lemma {:induction false} MarginIsCapped(s: seq<Candidate>, x: CustomerId, k: CaseId)
    requires forall c :: c in s ==> c.margin <= 800 * ContactsTo(x).Of(c) + 200 * InCase(k).Of(c)
    ensures Total(Margin, s) <= 800 * Total(ContactsTo(x), s) + 200 * Total(InCase(k), s)
  {
    if s != [] {
      var last := s[|s| - 1];
      assert last in s && forall c :: c in s[..|s| - 1] ==> c in s;
      MarginIsCapped(s[..|s| - 1], x, k);
    }
  }

  lemma {:induction false} EachWorth(s: seq<Candidate>, m: Measure, each: int)
    requires forall c :: c in s ==> m.Of(c) == each
    ensures Total(m, s) == each * |s|
  {
    if s != [] {
      var last := s[|s| - 1];
      assert last in s && forall c :: c in s[..|s| - 1] ==> c in s;
      EachWorth(s[..|s| - 1], m, each);
      assert each * |s| == each * (|s| - 1) + each;
    }
  }

  /** The trap: a contact worth 1000 beside a silent action worth 900 and other contacts worth 800 each. */
  ghost predicate Baited(priced: seq<Candidate>, top: Candidate, silent: Candidate, others: seq<Candidate>, cap: nat) {
    && Crossing(top, silent, others, cap) && From([top, silent] + others, priced)
    && top.margin == 1000 && silent.margin == 900 && (forall c :: c in others ==> c.margin == 800)
    && (forall x :: x in priced && x.margin > 0 ==> x in [top, silent] + others)
  }

  lemma BaitIsWorth(priced: seq<Candidate>, top: Candidate, silent: Candidate, others: seq<Candidate>, cap: nat,
                    c: Candidate)
    requires Baited(priced, top, silent, others, cap) && c in priced && c.margin > 0 && c != silent
    ensures c.margin <= 800 * ContactsTo(top.customer).Of(c) + 200 * InCase(top.caseId).Of(c)
  {
    assert c in [top, silent] + others;
  }

  /** The dual sees the heavy contact, and contacts up to the cap. */
  lemma BaitedDual(priced: seq<Candidate>, top: Candidate, silent: Candidate, others: seq<Candidate>, cap: nat,
                   b: Budgets)
    requires Baited(priced, top, silent, others, cap) && b.perCustomer == cap
    ensures Dual(priced, b, FREE) <= (800 * cap + 200) as real
  {
    var selected := Selected(priced, cap, FREE);
    assert top in [top, silent] + others;
    SelectedAdmissible(priced, cap, FREE);
    HeaviestShutsOut(priced, top, silent, cap);
    forall c | c in selected
      ensures c.margin <= 800 * ContactsTo(top.customer).Of(c) + 200 * InCase(top.caseId).Of(c)
    {
      FreeReduces(c);
      BaitIsWorth(priced, top, silent, others, cap, c);
    }
    MarginIsCapped(selected, top.customer, top.caseId);
    assert Total(ContactsTo(top.customer), selected) <= cap && Total(InCase(top.caseId), selected) <= 1;
    WorthIsPricedMargin(FREE, selected);
  }

  /** The plan that takes the silent action and all the other contacts is feasible and worth more. */
  lemma BaitIsFeasible(top: Candidate, silent: Candidate, others: seq<Candidate>, cap: nat) returns (b: Budgets)
    requires Crossing(top, silent, others, cap)
    requires silent.margin == 900 && forall c :: c in others ==> c.margin == 800
    ensures b.perCustomer == cap && Feasible([silent] + others, b)
    ensures Total(Margin, [silent] + others) == 900 + 800 * cap
  {
    var t := [silent] + others;
    forall m: Measure ensures Total(m, t) == m.Of(silent) + Total(m, others) {
      TotalConcat(m, [silent], others);
      TotalAppend(m, [], silent);
      assert [] + [silent] == [silent];
    }
    EachWorth(others, Margin, 800);
    EachWorth(others, Contacts, 1);
    TotalNonNegative(Discount, t);
    b := Budgets(cap, Total(Discount, t), cap);
    forall k ensures Total(InCase(k), t) <= 1 {
      assert Total(InCase(k), others) <= 1;
      if k == top.caseId {
        EachWorth(others, InCase(k), 0);
      }
    }
    forall y ensures Total(ContactsTo(y), t) <= cap {
      EachWorth(others, ContactsTo(y), if y == top.customer then 1 else 0);
    }
  }

  lemma BaitUndercuts(priced: seq<Candidate>, top: Candidate, silent: Candidate, others: seq<Candidate>, cap: nat)
      returns (b: Budgets)
    requires Baited(priced, top, silent, others, cap)
    ensures b.perCustomer == cap && !BoundHolds(priced, b, FREE, [silent] + others)
  {
    b := BaitIsFeasible(top, silent, others, cap);
    BaitedDual(priced, top, silent, others, cap, b);
    forall c | c in [silent] + others ensures c in priced {
      assert c in [top, silent] + others;
    }
  }

  lemma TrapIsBaited(candidates: seq<Candidate>, a: Candidate, b: Candidate, others: seq<Candidate>, cap: nat)
    requires a in candidates && b in candidates && From(others, candidates) && Crossing(a, b, others, cap)
    ensures Baited(Trapped(candidates, a, b, others), Trap(a, b, others, a), Trap(a, b, others, b),
                   Trapped(others, a, b, others), cap)
  {
    var priced, baits := Trapped(candidates, a, b, others), Trapped(others, a, b, others);
    var top, silent := Trap(a, b, others, a), Trap(a, b, others, b);
    TrappedFrom([a, b], candidates, a, b, others);
    TrappedFrom(others, candidates, a, b, others);
    assert a in [a, b] && b in [a, b];
    forall c | c in baits
      ensures c.margin == 800 && c.customer == top.customer && c.contacts == 1 && c.caseId != top.caseId
    {
      var y := TrappedElements(others, a, b, others, c);
    }
    forall k ensures Total(InCase(k), baits) <= 1 {
      RepricingKeepsTotals(others, baits, InCase(k));
      assert Total(InCase(k), others) <= 1;
    }
    forall x | x in priced && x.margin > 0 ensures x in [top, silent] + baits {
      var y := TrappedElements(candidates, a, b, others, x);
      if y in others {
        assert Trap(a, b, others, y) in baits;
      }
    }
  }

  /** Crossing caps can always be priced so that the dual undercuts a feasible list. */
  lemma CrossingBreaksTheBound(candidates: seq<Candidate>, a: Candidate, b: Candidate, others: seq<Candidate>, cap: nat)
    requires a in candidates && b in candidates && From(others, candidates) && Crossing(a, b, others, cap)
    ensures !AlwaysCertified(candidates, cap)
  {
    TrapIsBaited(candidates, a, b, others, cap);
    var limits := BaitUndercuts(Trapped(candidates, a, b, others), Trap(a, b, others, a), Trap(a, b, others, b),
                                Trapped(others, a, b, others), cap);
    assert Repriced(candidates, Trapped(candidates, a, b, others));
  }

  /** Under a contact cap the dual certifies an instance for all margins exactly when no caps cross. */
  lemma CertifiedExactlyWhenNothingCrosses(candidates: seq<Candidate>, cap: nat)
    requires CaseOwned(candidates)
    ensures AlwaysCertified(candidates, cap) <==> NoCrossing(candidates, cap)
  {
    if NoCrossing(candidates, cap) {
      forall priced, b: Budgets, p, t | Repriced(candidates, priced) && b.perCustomer == cap
        ensures BoundHolds(priced, b, p, t)
      {
        if p.NonNegative() && Feasible(t, b) && From(t, priced) {
          RepricingKeepsOwners(candidates, priced);
          RepricingKeepsCrossings(candidates, priced, cap);
          DualBoundsEveryPlan(priced, b, p, t);
        }
      }
    } else {
      var a, b, others :| a in candidates && b in candidates && From(others, candidates) && Crossing(a, b, others, cap);
      CrossingBreaksTheBound(candidates, a, b, others, cap);
    }
  }

  lemma OriginalOf(candidates: seq<Candidate>, priced: seq<Candidate>, x: Candidate) returns (y: Candidate)
    requires Repriced(candidates, priced) && x in priced
    ensures y in candidates && x == y.(margin := x.margin)
  {
    var i :| 0 <= i < |priced| && priced[i] == x;
    y := candidates[i];
  }

  lemma {:induction false} OriginalsOf(candidates: seq<Candidate>, priced: seq<Candidate>, s: seq<Candidate>)
      returns (t: seq<Candidate>)
    requires Repriced(candidates, priced) && From(s, priced)
    ensures From(t, candidates) && Repriced(t, s)
    decreases |s|
  {
    t := [];
    if s != [] {
      var last := s[|s| - 1];
      assert last in s && forall c :: c in s[..|s| - 1] ==> c in s;
      t := OriginalsOf(candidates, priced, s[..|s| - 1]);
      var y := OriginalOf(candidates, priced, last);
      t := t + [y];
    }
  }

  lemma RepricingKeepsOwners(candidates: seq<Candidate>, priced: seq<Candidate>)
    requires Repriced(candidates, priced) && CaseOwned(candidates)
    ensures CaseOwned(priced)
  {
    forall c, d | c in priced && d in priced && c.caseId == d.caseId ensures c.customer == d.customer {
      var c' := OriginalOf(candidates, priced, c);
      var d' := OriginalOf(candidates, priced, d);
    }
  }

  lemma RepricingKeepsCrossings(candidates: seq<Candidate>, priced: seq<Candidate>, cap: nat)
    requires Repriced(candidates, priced) && NoCrossing(candidates, cap)
    ensures NoCrossing(priced, cap)
  {
    forall a, b, others | a in priced && b in priced && From(others, priced) ensures !Crossing(a, b, others, cap) {
      if Crossing(a, b, others, cap) {
        var a' := OriginalOf(candidates, priced, a);
        var b' := OriginalOf(candidates, priced, b);
        var others' := OriginalsOf(candidates, priced, others);
        CrossingSurvives(a, b, others, others', cap);
        assert Crossing(a', b', others', cap);
      }
    }
  }

  lemma CrossingSurvives(a: Candidate, b: Candidate, others: seq<Candidate>, originals: seq<Candidate>, cap: nat)
    requires Crossing(a, b, others, cap) && Repriced(originals, others)
    ensures Crossing(a, b, originals, cap)
  {
    forall k ensures Total(InCase(k), originals) <= 1 {
      RepricingKeepsTotals(originals, others, InCase(k));
      assert Total(InCase(k), others) <= 1;
    }
    forall c | c in originals ensures c.customer == a.customer && c.contacts == 1 && c.caseId != a.caseId {
      var i :| 0 <= i < |originals| && originals[i] == c;
      assert others[i] in others;
    }
  }
}
