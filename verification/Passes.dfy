/**
 The constructive passes of the allocator: `_select` under prices, `_fill` of leftover
 budget, the density greedy, and the trim that makes a priced selection respect its
 budgets.
*/
module Passes {
  import opened Candidates
  import opened Selection
  import opened Sorting
  import opened RunningState

  function ByMargin(c: Candidate): Key {
    Finite(c.margin as real)
  }

  /** Margin per unit of scarce resource; an action that draws none sorts first. */
  function ByDensity(c: Candidate): Key {
    var cost := c.contacts as real + c.discount as real / 10000.0;
    if cost > 0.0 then Finite(c.margin as real / cost) else Infinite
  }

  function Ids(s: seq<Candidate>): set<nat> {
    set c | c in s :: c.id
  }

  /** Worth something and not already picked, by identity. */
  function Outstanding(picked: set<nat>): Candidate -> bool {
    (c: Candidate) => c.id !in picked && c.margin > 0
  }

  /** Scans xs in order and keeps whatever still fits. */
  function TakeFitting(xs: seq<Candidate>, chosen: seq<Candidate>, b: Budgets): seq<Candidate> {
    if xs == [] then chosen
    else TakeFitting(xs[1..], if Fits(chosen, xs[0], b) then chosen + [xs[0]] else chosen, b)
  }

  function Remaining(chosen: seq<Candidate>, candidates: seq<Candidate>): seq<Candidate> {
    SortDesc(ByMargin, Filter(Outstanding(Ids(chosen)), candidates))
  }

  function Filled(chosen: seq<Candidate>, candidates: seq<Candidate>, b: Budgets): seq<Candidate> {
    TakeFitting(Remaining(chosen, candidates), chosen, b)
  }

  function ByDensityOrder(candidates: seq<Candidate>): seq<Candidate> {
    SortDesc(ByDensity, Filter(Outstanding({}), candidates))
  }

  function GreedyPlan(candidates: seq<Candidate>, b: Budgets): seq<Candidate> {
    TakeFitting(ByDensityOrder(candidates), [], b)
  }

  // What TakeFitting returns

  lemma {:induction false} TakeFittingExtends(xs: seq<Candidate>, chosen: seq<Candidate>, b: Budgets)
      returns (more: seq<Candidate>)
    ensures TakeFitting(xs, chosen, b) == chosen + more && From(more, xs)
    ensures Feasible(chosen, b) ==> Feasible(chosen + more, b)
    decreases |xs|
  {
    if xs == [] {
      more := [];
      assert chosen + more == chosen;
    } else {
      var next := if Fits(chosen, xs[0], b) then chosen + [xs[0]] else chosen;
      if Feasible(chosen, b) {
        FitsExactly(chosen, xs[0], b);
      }
      var rest := TakeFittingExtends(xs[1..], next, b);
      more := next[|chosen|..] + rest;
      assert chosen + more == next + rest;
    }
  }

  /** Nothing scanned still fits at the end. */
  lemma {:induction false} TakeFittingIsMaximal(xs: seq<Candidate>, chosen: seq<Candidate>, b: Budgets, c: Candidate)
    requires c in xs
    ensures !Fits(TakeFitting(xs, chosen, b), c, b)
    decreases |xs|
  {
    var next := if Fits(chosen, xs[0], b) then chosen + [xs[0]] else chosen;
    if c == xs[0] {
      var more := TakeFittingExtends(xs[1..], next, b);
      TotalAppend(InCase(c.caseId), chosen, c);
      TotalNonNegative(InCase(c.caseId), chosen);
      assert !Fits(next, c, b);
      if Fits(next + more, c, b) {
        RefusalPersists(next, more, c, b);
      }
    } else {
      assert c in xs[1..];
      TakeFittingIsMaximal(xs[1..], next, b, c);
    }
  }

  lemma {:induction false} NothingFits(xs: seq<Candidate>, chosen: seq<Candidate>, b: Budgets)
    requires forall c :: c in xs ==> !Fits(chosen, c, b)
    ensures TakeFitting(xs, chosen, b) == chosen
    decreases |xs|
  {
    if xs != [] {
      assert xs[0] in xs && forall c :: c in xs[1..] ==> c in xs;
      NothingFits(xs[1..], chosen, b);
    }
  }

  /** What a sorted scan passes over for something of a smaller key was picked before it or did not fit. */
  lemma {:induction false} TakeFittingInOrder(key: Candidate -> Key, xs: seq<Candidate>, chosen: seq<Candidate>,
                                              b: Budgets, more: seq<Candidate>, i: nat, c: Candidate)
    requires Descending(key, xs) && TakeFitting(xs, chosen, b) == chosen + more && i < |more|
    requires c in xs && !AtLeast(key(more[i]), key(c))
    ensures c in more[..i] || !Fits(chosen + more[..i], c, b)
    decreases |xs|
  {
    var x := xs[0];
    assert c == x || c in xs[1..];
    assert AtLeast(key(x), key(c));
    if Fits(chosen, x, b) {
      var rest := TakeFittingExtends(xs[1..], chosen + [x], b);
      assert chosen + more == chosen + ([x] + rest);
      assert more == [x] + rest by {
        assert (chosen + more)[|chosen|..] == more && (chosen + ([x] + rest))[|chosen|..] == [x] + rest;
      }
      if c != x {
        TakeFittingInOrder(key, xs[1..], chosen + [x], b, rest, i - 1, c);
        assert more[..i] == [x] + rest[..i - 1];
        assert chosen + more[..i] == chosen + [x] + rest[..i - 1];
      } else {
        assert more[..i][0] == c;
      }
    } else if c == x {
      if Fits(chosen + more[..i], c, b) {
        RefusalPersists(chosen, more[..i], c, b);
      }
    } else {
      TakeFittingInOrder(key, xs[1..], chosen, b, more, i, c);
    }
  }

  /**
   What was added after `start` was added best margin first: anything worth more that could
   have been added instead was already there, or did not fit.
  */
  ghost predicate BestFirst(start: seq<Candidate>, more: seq<Candidate>, candidates: seq<Candidate>, b: Budgets) {
    forall i, c :: 0 <= i < |more| && c in candidates && (forall d :: d in start ==> d.id != c.id)
                   && c.margin > more[i].margin ==>
      c in more[..i] || !Fits(start + more[..i], c, b)
  }

  /** Ten thousand times what an action draws: a contact counts for a hundred rupees of discount. */
  function Cost(c: Candidate): int {
    10000 * c.contacts + c.discount
  }

  /** Worth more for what it draws; an action that draws nothing beats every action that does. */
  predicate Denser(c: Candidate, d: Candidate) {
    if Cost(c) == 0 then Cost(d) > 0 else Cost(d) > 0 && c.margin * Cost(d) > d.margin * Cost(c)
  }

  /** The plan was built densest first. */
  ghost predicate DensestFirst(plan: seq<Candidate>, candidates: seq<Candidate>, b: Budgets) {
    forall i, c :: 0 <= i < |plan| && c in candidates && c.margin > 0 && Denser(c, plan[i]) ==>
      c in plan[..i] || !Fits(plan[..i], c, b)
  }

  lemma QuotientOrder(x: real, p: real, y: real, q: real)
    requires p > 0.0 && q > 0.0 && (x * p) * q > (y * q) * p
    ensures x > y
  {
    assert p * q > 0.0;
    assert (x * p) * q == x * (p * q) && (y * q) * p == y * (p * q);
    assert (x - y) * (p * q) > 0.0;
  }

  lemma ScaledOrder(a: int, m: int, b: int, n: int, q: real, p: real)
    requires a * m > b * n && q * 10000.0 == m as real && p * 10000.0 == n as real
    ensures a as real * q > b as real * p
  {
    assert (a * m) as real == a as real * m as real && (b * n) as real == b as real * n as real;
    assert a as real * m as real == (a as real * q) * 10000.0 && b as real * n as real == (b as real * p) * 10000.0;
  }

  lemma DenserByKey(c: Candidate, d: Candidate)
    requires Denser(c, d)
    ensures !AtLeast(ByDensity(d), ByDensity(c))
  {
    if Cost(c) > 0 {
      var p, q := c.contacts as real + c.discount as real / 10000.0, d.contacts as real + d.discount as real / 10000.0;
      assert p * 10000.0 == Cost(c) as real && q * 10000.0 == Cost(d) as real;
      ScaledOrder(c.margin, Cost(d), d.margin, Cost(c), q, p);
      QuotientOrder(c.margin as real / p, p, d.margin as real / q, q);
    }
  }

  lemma OwnCaseTaken(s: seq<Candidate>, c: Candidate, b: Budgets)
    requires c in s
    ensures !Fits(s, c, b)
  {
    TotalAtLeast(InCase(c.caseId), s, c);
  }

  /** No candidate with a positive margin still fits. */
  ghost predicate Maximal(chosen: seq<Candidate>, candidates: seq<Candidate>, b: Budgets) {
    forall c :: c in candidates && c.margin > 0 ==> !Fits(chosen, c, b)
  }

  ghost predicate Profitable(s: seq<Candidate>) {
    forall c :: c in s ==> c.margin > 0
  }

  lemma RemainingElements(chosen: seq<Candidate>, candidates: seq<Candidate>)
    ensures forall c :: c in Remaining(chosen, candidates) <==>
                          c in candidates && c.margin > 0 && c.id !in Ids(chosen)
  {
    SameElements(ByMargin, Filter(Outstanding(Ids(chosen)), candidates));
  }

  /** Filling keeps every budget and leaves nothing on the table. */
  lemma FilledIsMaximal(chosen: seq<Candidate>, candidates: seq<Candidate>, b: Budgets)
    requires Identified(chosen + candidates)
    ensures chosen <= Filled(chosen, candidates, b)
    ensures From(Filled(chosen, candidates, b), chosen + candidates)
    ensures Feasible(chosen, b) ==> Feasible(Filled(chosen, candidates, b), b)
    ensures Profitable(chosen) ==> Profitable(Filled(chosen, candidates, b))
    ensures Maximal(Filled(chosen, candidates, b), candidates, b)
  {
    RemainingElements(chosen, candidates);
    var xs := Remaining(chosen, candidates);
    var more := TakeFittingExtends(xs, chosen, b);
    var filled := chosen + more;
    forall c | c in candidates && c.margin > 0 ensures !Fits(filled, c, b) {
      if c in xs {
        TakeFittingIsMaximal(xs, chosen, b, c);
      } else {
        var d :| d in chosen && d.id == c.id;
        assert c in chosen + candidates && d in chosen + candidates;
        OwnCaseTaken(filled, c, b);
      }
    }
  }

  lemma FilledBestFirst(chosen: seq<Candidate>, candidates: seq<Candidate>, b: Budgets)
    ensures chosen <= Filled(chosen, candidates, b)
    ensures BestFirst(chosen, Filled(chosen, candidates, b)[|chosen|..], candidates, b)
  {
    var xs := Remaining(chosen, candidates);
    RemainingElements(chosen, candidates);
    SortOrders(ByMargin, Filter(Outstanding(Ids(chosen)), candidates));
    var more := TakeFittingExtends(xs, chosen, b);
    assert Filled(chosen, candidates, b)[|chosen|..] == more;
    forall i, c | 0 <= i < |more| && c in candidates && (forall d :: d in chosen ==> d.id != c.id)
                  && c.margin > more[i].margin
      ensures c in more[..i] || !Fits(chosen + more[..i], c, b)
    {
      assert more[i] in more;
      TakeFittingInOrder(ByMargin, xs, chosen, b, more, i, c);
    }
  }

  lemma GreedyDensestFirst(candidates: seq<Candidate>, b: Budgets)
    ensures DensestFirst(GreedyPlan(candidates, b), candidates, b)
  {
    var xs, plan := ByDensityOrder(candidates), GreedyPlan(candidates, b);
    SameElements(ByDensity, Filter(Outstanding({}), candidates));
    SortOrders(ByDensity, Filter(Outstanding({}), candidates));
    assert [] + plan == plan;
    forall i, c | 0 <= i < |plan| && c in candidates && c.margin > 0 && Denser(c, plan[i])
      ensures c in plan[..i] || !Fits(plan[..i], c, b)
    {
      DenserByKey(c, plan[i]);
      TakeFittingInOrder(ByDensity, xs, [], b, plan, i, c);
      assert [] + plan[..i] == plan[..i];
    }
  }

  /** Filling a density-greedy plan adds nothing: everything left was already refused. */
  lemma FillingGreedyAddsNothing(candidates: seq<Candidate>, b: Budgets)
    ensures Filled(GreedyPlan(candidates, b), candidates, b) == GreedyPlan(candidates, b)
  {
    var plan := GreedyPlan(candidates, b);
    RemainingElements(plan, candidates);
    SameElements(ByDensity, Filter(Outstanding({}), candidates));
    forall c | c in Remaining(plan, candidates) ensures !Fits(plan, c, b) {
      TakeFittingIsMaximal(ByDensityOrder(candidates), [], b, c);
    }
    NothingFits(Remaining(plan, candidates), plan, b);
  }

  lemma EmptyFeasible(b: Budgets)
    ensures Feasible([], b)
  {
  }

  lemma GreedyPlanFeasible(candidates: seq<Candidate>, b: Budgets)
    ensures Feasible(GreedyPlan(candidates, b), b)
    ensures From(GreedyPlan(candidates, b), candidates) && Profitable(GreedyPlan(candidates, b))
  {
    EmptyFeasible(b);
    SameElements(ByDensity, Filter(Outstanding({}), candidates));
    var more := TakeFittingExtends(ByDensityOrder(candidates), [], b);
    assert [] + more == more;
  }

  // The loops

  lemma {:induction false} FilterAppend<T(!new)>(p: T -> bool, s: seq<T>, x: T)
    ensures Filter(p, s + [x]) == Filter(p, s) + if p(x) then [x] else []
  {
    if s == [] {
      assert [] + [x] == [x];
    } else {
      FilterAppend(p, s[1..], x);
      assert (s + [x])[1..] == s[1..] + [x];
    }
  }

  method Select(candidates: seq<Candidate>, b: Budgets, p: Price) returns (chosen: seq<Candidate>)
    ensures chosen == Selected(candidates, b.perCustomer, p)
  {
    var scored := [];
    var i := 0;
    while i < |candidates|
      invariant 0 <= i <= |candidates|
      invariant scored == Filter(ClearsAt(p), candidates[..i])
    {
      FilterAppend(ClearsAt(p), candidates[..i], candidates[i]);
      assert candidates[..i + 1] == candidates[..i] + [candidates[i]];
      if p.Reduced(candidates[i]) > 0.0 {
        scored := scored + [candidates[i]];
      }
      i := i + 1;
    }
    assert candidates[..i] == candidates;
    chosen := Scan(SortDesc(ByReduced(p), scored), b.perCustomer);
  }

  ghost predicate SeenCases(seen: set<CaseId>, chosen: seq<Candidate>) {
    forall k :: k in seen <==> Total(InCase(k), chosen) > 0
  }

  lemma ScanStep(perCustomer: map<CustomerId, int>, seen: set<CaseId>, chosen: seq<Candidate>, c: Candidate)
    requires Counts(perCustomer, chosen) && SeenCases(seen, chosen)
    ensures Counts(Credited(perCustomer, c), chosen + [c]) && SeenCases(seen + {c.caseId}, chosen + [c])
  {
    forall x ensures Total(ContactsTo(x), chosen + [c]) == Total(ContactsTo(x), chosen) + ContactsTo(x).Of(c) {
      TotalAppend(ContactsTo(x), chosen, c);
    }
    CreditedCounts(perCustomer, chosen, c, chosen + [c]);
    forall k ensures k in seen + {c.caseId} <==> Total(InCase(k), chosen + [c]) > 0 {
      TotalAppend(InCase(k), chosen, c);
      TotalNonNegative(InCase(k), chosen);
    }
  }

  /** Keeps, in order, what the case and customer caps admit. */
  method Scan(scored: seq<Candidate>, cap: nat) returns (chosen: seq<Candidate>)
    ensures chosen == Take(scored, [], cap)
  {
    var perCustomer: map<CustomerId, int> := map[];
    var seenCases: set<CaseId> := {};
    chosen := [];
    var i := 0;
    while i < |scored|
      invariant 0 <= i <= |scored|
      invariant Counts(perCustomer, chosen) && SeenCases(seenCases, chosen)
      invariant Take(scored[i..], chosen, cap) == Take(scored, [], cap)
    {
      var c := scored[i];
      i := i + 1;
      TotalNonNegative(InCase(c.caseId), chosen);
      LookupCounts(perCustomer, chosen, c.customer);
      if c.caseId in seenCases {
        continue;
      }
      if c.contacts > 0 {
        var used := Lookup(perCustomer, c.customer);
        if used + c.contacts > cap {
          continue;
        }
      }
      ScanStep(perCustomer, seenCases, chosen, c);
      perCustomer := Credited(perCustomer, c);
      seenCases := seenCases + {c.caseId};
      chosen := chosen + [c];
    }
  }

  method Fill(chosen: seq<Candidate>, candidates: seq<Candidate>, b: Budgets) returns (filled: seq<Candidate>)
    ensures filled == Filled(chosen, candidates, b)
    ensures chosen <= filled && BestFirst(chosen, filled[|chosen|..], candidates, b)
  {
    FilledBestFirst(chosen, candidates, b);
    var running := new Running.Of(chosen);
    var remaining := Remaining(chosen, candidates);
    filled := chosen;
    var i := 0;
    while i < |remaining|
      invariant 0 <= i <= |remaining|
      invariant running.Tracks(filled)
      invariant TakeFitting(remaining[i..], filled, b) == Filled(chosen, candidates, b)
    {
      var fits := running.FitsNow(remaining[i], b, filled);
      if fits {
        running.Add(remaining[i], filled);
        filled := filled + [remaining[i]];
      }
      i := i + 1;
    }
  }

  method Greedy(candidates: seq<Candidate>, b: Budgets) returns (chosen: seq<Candidate>)
    ensures chosen == GreedyPlan(candidates, b)
    ensures DensestFirst(chosen, candidates, b)
  {
    GreedyDensestFirst(candidates, b);
    var running := new Running();
    var order := ByDensityOrder(candidates);
    chosen := [];
    var i := 0;
    while i < |order|
      invariant 0 <= i <= |order|
      invariant running.Tracks(chosen)
      invariant TakeFitting(order[i..], chosen, b) == GreedyPlan(candidates, b)
    {
      var fits := running.FitsNow(order[i], b, chosen);
      if fits {
        running.Add(order[i], chosen);
        chosen := chosen + [order[i]];
      }
      i := i + 1;
    }
  }

  /** A spender that no spender undercuts and that no earlier one equals. */
  ghost predicate FirstCheapest(chosen: seq<Candidate>, resource: Measure, i: nat) {
    && i < |chosen| && resource.Of(chosen[i]) > 0
    && forall j :: 0 <= j < |chosen| && resource.Of(chosen[j]) > 0 ==>
         chosen[i].margin <= chosen[j].margin && (j < i ==> chosen[i].margin < chosen[j].margin)
  }

  /** The position of the first cheapest spender, or the length if nothing draws on the resource. */
  function Cheapest(chosen: seq<Candidate>, resource: Measure): (i: nat)
    ensures i <= |chosen|
    ensures i < |chosen| ==> FirstCheapest(chosen, resource, i)
    ensures i == |chosen| ==> forall c :: c in chosen ==> resource.Of(c) <= 0
  {
    if chosen == [] then 0
    else
      var n := |chosen| - 1;
      var k := Cheapest(chosen[..n], resource);
      if k == n then (if resource.Of(chosen[n]) > 0 then n else n + 1)
      else if resource.Of(chosen[n]) > 0 && chosen[n].margin < chosen[k].margin then n
      else k
  }

  /** What trimming leaves: the first cheapest spender goes until the limit holds. */
  function Trims(chosen: seq<Candidate>, resource: Measure, limit: nat): seq<Candidate>
    decreases |chosen|
  {
    var worst := Cheapest(chosen, resource);
    if Total(resource, chosen) <= limit || worst == |chosen| then chosen
    else Trims(Drop(chosen, worst), resource, limit)
  }

  lemma CheapestGrows(chosen: seq<Candidate>, resource: Measure, i: nat)
    requires i < |chosen|
    ensures var k := Cheapest(chosen[..i], resource);
            var cheaper := resource.Of(chosen[i]) > 0 && (k == i || chosen[i].margin < chosen[k].margin);
            Cheapest(chosen[..i + 1], resource) == if cheaper then i else if k == i then i + 1 else k
  {
    assert chosen[..i + 1][..i] == chosen[..i];
  }

  method CheapestSpender(chosen: seq<Candidate>, resource: Measure) returns (worst: nat)
    ensures worst == Cheapest(chosen, resource)
  {
    worst := |chosen|;
    var i := 0;
    while i < |chosen|
      invariant 0 <= i <= |chosen|
      invariant if worst == |chosen| then Cheapest(chosen[..i], resource) == i
                else worst < i && Cheapest(chosen[..i], resource) == worst
    {
      CheapestGrows(chosen, resource, i);
      if resource.Of(chosen[i]) > 0 && (worst == |chosen| || chosen[i].margin < chosen[worst].margin) {
        worst := i;
      }
      i := i + 1;
    }
    assert chosen[..i] == chosen;
  }

  /** What was dropped drew on the resource and was worth no more than any spender that stays. */
  ghost predicate Trimmed(chosen: seq<Candidate>, kept: seq<Candidate>, resource: Measure) {
    && multiset(kept) <= multiset(chosen)
    && (forall c, d :: c in multiset(chosen) - multiset(kept) && d in kept && resource.Of(d) > 0 ==>
          c.margin <= d.margin)
    && (forall c :: c in multiset(chosen) - multiset(kept) ==> resource.Of(c) > 0)
  }

  /** Something dropped would not have fitted the limit. */
  ghost predicate StillNeeded(chosen: seq<Candidate>, kept: seq<Candidate>, resource: Measure, limit: nat) {
    exists c :: c in multiset(chosen) - multiset(kept) && Total(resource, kept) + resource.Of(c) > limit
  }

  lemma TrimStep(chosen: seq<Candidate>, kept: seq<Candidate>, worst: nat, resource: Measure)
    requires Trimmed(chosen, kept, resource)
    requires worst < |kept| && resource.Of(kept[worst]) > 0
    requires forall c :: c in kept && resource.Of(c) > 0 ==> kept[worst].margin <= c.margin
    ensures Trimmed(chosen, Drop(kept, worst), resource)
  {
    var rest := Drop(kept, worst);
    DropMultiset(kept, worst);
    forall d | d in rest ensures d in kept {
      assert d in multiset(rest);
    }
    forall c | c in multiset(chosen) - multiset(rest)
      ensures c in multiset(chosen) - multiset(kept) || c == kept[worst]
    {
    }
  }

  /** Part of a list draws no more of any resource than the whole. */
  lemma {:induction false} PartTotal(m: Measure, part: seq<Candidate>, whole: seq<Candidate>)
    requires !m.Margin? && multiset(part) <= multiset(whole)
    ensures Total(m, part) <= Total(m, whole)
    decreases |part|
  {
    TotalNonNegative(m, whole);
    if part != [] {
      assert part[0] in multiset(part);
      var i :| 0 <= i < |whole| && whole[i] == part[0];
      DropMultiset(part, 0);
      DropMultiset(whole, i);
      PartTotal(m, Drop(part, 0), Drop(whole, i));
      TotalDrop(m, part, 0);
      TotalDrop(m, whole, i);
    }
  }

  lemma PartFeasible(part: seq<Candidate>, whole: seq<Candidate>, cap: nat)
    requires multiset(part) <= multiset(whole)
    ensures Admissible(whole, cap) ==> Admissible(part, cap)
    ensures Total(Contacts, part) <= Total(Contacts, whole) && Total(Discount, part) <= Total(Discount, whole)
    ensures From(part, whole)
  {
    forall m: Measure | !m.Margin? ensures Total(m, part) <= Total(m, whole) {
      PartTotal(m, part, whole);
    }
    forall c | c in part ensures c in whole {
      assert c in multiset(part);
    }
  }

  lemma CheapestIsSpender(kept: seq<Candidate>, resource: Measure, limit: nat)
    requires (resource.Contacts? || resource.Discount?) && Total(resource, kept) > limit
    ensures var worst := Cheapest(kept, resource);
            && worst < |kept| && resource.Of(kept[worst]) > 0
            && forall c :: c in kept && resource.Of(c) > 0 ==> kept[worst].margin <= c.margin
  {
    var spender := TotalWitness(resource, kept);
    assert kept[spender] in kept;
  }

  lemma DroppedWasNeeded(chosen: seq<Candidate>, kept: seq<Candidate>, worst: nat, resource: Measure, limit: nat)
    requires multiset(kept) <= multiset(chosen) && worst < |kept| && Total(resource, kept) > limit
    ensures StillNeeded(chosen, Drop(kept, worst), resource, limit)
  {
    DropMultiset(kept, worst);
    TotalDrop(resource, kept, worst);
    assert kept[worst] in multiset(chosen) - multiset(Drop(kept, worst));
  }

  /** What trimming has kept of a list so far, on its way to what Trims says. */
  ghost predicate TrimmedSoFar(chosen: seq<Candidate>, kept: seq<Candidate>, resource: Measure, limit: nat) {
    && Trims(kept, resource, limit) == Trims(chosen, resource, limit)
    && Trimmed(chosen, kept, resource)
    && (kept == chosen || StillNeeded(chosen, kept, resource, limit))
  }

  lemma TrimStarts(chosen: seq<Candidate>, resource: Measure, limit: nat)
    ensures TrimmedSoFar(chosen, chosen, resource, limit)
  {
    assert multiset(chosen) - multiset(chosen) == multiset{};
  }

  lemma TrimGoesOn(chosen: seq<Candidate>, kept: seq<Candidate>, worst: nat, resource: Measure, limit: nat)
    requires resource.Contacts? || resource.Discount?
    requires TrimmedSoFar(chosen, kept, resource, limit)
    requires Total(resource, kept) > limit && worst == Cheapest(kept, resource)
    ensures worst < |kept| && TrimmedSoFar(chosen, Drop(kept, worst), resource, limit)
  {
    CheapestIsSpender(kept, resource, limit);
    TrimStep(chosen, kept, worst, resource);
    DroppedWasNeeded(chosen, kept, worst, resource, limit);
  }

  /** What trimming keeps is within the limit, and it never drops more or dearer than it must. */
  lemma {:induction false} TrimsAreFair(chosen: seq<Candidate>, kept: seq<Candidate>, resource: Measure, limit: nat)
    requires resource.Contacts? || resource.Discount?
    requires TrimmedSoFar(chosen, kept, resource, limit)
    ensures TrimmedSoFar(chosen, Trims(chosen, resource, limit), resource, limit)
    ensures Total(resource, Trims(chosen, resource, limit)) <= limit
    decreases |kept|
  {
    if Total(resource, kept) > limit {
      var worst := Cheapest(kept, resource);
      TrimGoesOn(chosen, kept, worst, resource, limit);
      TrimsAreFair(chosen, Drop(kept, worst), resource, limit);
    }
  }

  /** Drops the cheapest spenders until the resource is within its limit. */
  method Trim(chosen: seq<Candidate>, resource: Measure, limit: nat) returns (kept: seq<Candidate>)
    requires resource.Contacts? || resource.Discount?
    ensures kept == Trims(chosen, resource, limit)
    ensures Total(resource, kept) <= limit
    ensures Trimmed(chosen, kept, resource)
    ensures kept == chosen || StillNeeded(chosen, kept, resource, limit)
  {
    TrimStarts(chosen, resource, limit);
    TrimsAreFair(chosen, chosen, resource, limit);
    kept := chosen;
    while Total(resource, kept) > limit
      invariant Trims(kept, resource, limit) == Trims(chosen, resource, limit)
      decreases |kept|
    {
      var worst := CheapestSpender(kept, resource);
      CheapestIsSpender(kept, resource, limit);
      kept := Drop(kept, worst);
    }
  }
}
