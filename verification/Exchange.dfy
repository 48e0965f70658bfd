/**
 `_improve`: trade a funded action for a better unfunded one, best exchange first, looking
 only at the weakest funded and the strongest unfunded actions.
*/
module Exchange {
  import opened Candidates
  import opened Sorting
  import opened RunningState
  import opened Passes

  const SWAP_WINDOW := 32
  const MAX_SWAP_PASSES := 4

  datatype Swap = NoSwap | Swap(i: nat, challenger: Candidate)

  function Window<T>(s: seq<T>): seq<T> {
    if |s| <= SWAP_WINDOW then s else s[..SWAP_WINDOW]
  }

  function Positions(n: nat): seq<nat> {
    seq(n, i => i)
  }

  function ByWeakness(chosen: seq<Candidate>): nat -> Key {
    (i: nat) => if i < |chosen| then Finite(-(chosen[i].margin as real)) else Infinite
  }

  /** Positions of the weakest funded actions, weakest first. */
  function Weakest(chosen: seq<Candidate>): seq<nat> {
    Window(SortDesc(ByWeakness(chosen), Positions(|chosen|)))
  }

  /** The strongest unfunded actions, strongest first. */
  function Strongest(outside: seq<Candidate>): seq<Candidate> {
    Window(SortDesc(ByMargin, outside))
  }

  function Gain(chosen: seq<Candidate>, i: nat, c: Candidate): int
    requires i < |chosen|
  {
    c.margin - chosen[i].margin
  }

  /** No exchange inside the windows gains more than the given amount. */
  ghost predicate NoGainAbove(gain: int, chosen: seq<Candidate>, outside: seq<Candidate>, b: Budgets) {
    forall i, c :: i in Weakest(chosen) && c in Strongest(outside) && i < |chosen| && Feasible(chosen[i := c], b) ==>
                     Gain(chosen, i, c) <= gain
  }

  /** No single feasible exchange with any candidate at all improves the plan. */
  ghost predicate LocallyOptimal(chosen: seq<Candidate>, candidates: seq<Candidate>, b: Budgets) {
    forall i, c :: 0 <= i < |chosen| && c in candidates && Feasible(chosen[i := c], b) ==>
                     c.margin <= chosen[i].margin
  }

  lemma PositionsElements(n: nat, i: nat)
    ensures i in Positions(n) <==> i < n
  {
    if i < n {
      assert Positions(n)[i] == i;
    }
  }

  lemma WindowElements<T>(s: seq<T>, x: T)
    ensures x in Window(s) ==> x in s
    ensures |s| <= SWAP_WINDOW && x in s ==> x in Window(s)
  {
  }

  lemma WeakestArePositions(chosen: seq<Candidate>, i: nat)
    ensures i in Weakest(chosen) ==> i < |chosen|
    ensures |chosen| <= SWAP_WINDOW && i < |chosen| ==> i in Weakest(chosen)
  {
    SameElements(ByWeakness(chosen), Positions(|chosen|));
    PositionsElements(|chosen|, i);
    WindowElements(SortDesc(ByWeakness(chosen), Positions(|chosen|)), i);
  }

  lemma StrongestAreOutside(outside: seq<Candidate>)
    ensures forall c :: c in Strongest(outside) ==> c in outside
    ensures |outside| <= SWAP_WINDOW ==> forall c :: c in outside ==> c in Strongest(outside)
  {
    SameElements(ByMargin, outside);
  }

  /** Nothing outside the windows is weaker, or stronger, than what is inside. */
  lemma WindowsHoldTheExtremes(chosen: seq<Candidate>, outside: seq<Candidate>, i: nat, j: nat,
                               c: Candidate, d: Candidate)
    requires i in Weakest(chosen) && j < |chosen| && j !in Weakest(chosen)
    requires c in Strongest(outside) && d in outside && d !in Strongest(outside)
    ensures i < |chosen| && chosen[i].margin <= chosen[j].margin
    ensures c.margin >= d.margin
  {
    var order := SortDesc(ByWeakness(chosen), Positions(|chosen|));
    SortOrders(ByWeakness(chosen), Positions(|chosen|));
    SameElements(ByWeakness(chosen), Positions(|chosen|));
    PositionsElements(|chosen|, j);
    WeakestArePositions(chosen, i);
    PrefixDominates(ByWeakness(chosen), order, SWAP_WINDOW, i, j);
    var ranked := SortDesc(ByMargin, outside);
    SortOrders(ByMargin, outside);
    SameElements(ByMargin, outside);
    PrefixDominates(ByMargin, ranked, SWAP_WINDOW, c, d);
  }

  ghost predicate Improves(swap: Swap, chosen: seq<Candidate>, outside: seq<Candidate>, b: Budgets) {
    && swap.Swap? && swap.i < |chosen| && swap.challenger in outside
    && Feasible(chosen[swap.i := swap.challenger], b)
    && Gain(chosen, swap.i, swap.challenger) > 0
  }

  /** No challenger in the list gains more than this by replacing position i. */
  ghost predicate RowDone(gain: int, chosen: seq<Candidate>, i: nat, challengers: seq<Candidate>, b: Budgets) {
    i < |chosen| ==> forall c :: c in challengers && Feasible(chosen[i := c], b) ==> Gain(chosen, i, c) <= gain
  }

  /** The best exchange found so far and what it gains. */
  ghost predicate Leading(best: Swap, gain: int, chosen: seq<Candidate>, outside: seq<Candidate>, b: Budgets) {
    && gain >= 0
    && (best.NoSwap? ==> gain == 0)
    && (best.Swap? ==> Improves(best, chosen, outside, b) && gain == Gain(chosen, best.i, best.challenger))
  }

  /** Tries every challenger of the window against one funded action. */
  method TryRow(chosen: seq<Candidate>, ghost outside: seq<Candidate>, strongest: seq<Candidate>, running: Running,
                b: Budgets, i: nat, before: Swap, gainBefore: int)
      returns (best: Swap, bestGain: int)
    requires Feasible(chosen, b) && running.Tracks(chosen) && i < |chosen|
    requires forall c :: c in strongest ==> c in outside
    requires Leading(before, gainBefore, chosen, outside, b)
    ensures Leading(best, bestGain, chosen, outside, b)
    ensures bestGain >= gainBefore && RowDone(bestGain, chosen, i, strongest, b)
  {
    best, bestGain := before, gainBefore;
    var incumbent := chosen[i];
    var k := 0;
    while k < |strongest|
      invariant 0 <= k <= |strongest| && bestGain >= gainBefore
      invariant Leading(best, bestGain, chosen, outside, b)
      invariant RowDone(bestGain, chosen, i, strongest[..k], b)
    {
      var challenger := strongest[k];
      assert challenger in strongest;
      assert strongest[..k + 1] == strongest[..k] + [challenger];
      k := k + 1;
      var gain := challenger.margin - incumbent.margin;
      if gain <= bestGain {
        continue;
      }
      var fits := running.FitsReplacing(incumbent, challenger, b, chosen, i);
      ExchangeExactly(chosen, i, challenger, b);
      if fits {
        bestGain, best := gain, Swap(i, challenger);
      }
    }
    assert strongest[..k] == strongest;
  }

  /** The best improving exchange inside the windows, or none if there is none. */
  method BestSwap(chosen: seq<Candidate>, outside: seq<Candidate>, running: Running, b: Budgets) returns (best: Swap)
    requires Feasible(chosen, b) && running.Tracks(chosen)
    ensures best.NoSwap? ==> NoGainAbove(0, chosen, outside, b)
    ensures best.Swap? ==> Improves(best, chosen, outside, b)
    ensures best.Swap? ==> NoGainAbove(Gain(chosen, best.i, best.challenger), chosen, outside, b)
  {
    var weakest, strongest := Weakest(chosen), Strongest(outside);
    StrongestAreOutside(outside);
    best := NoSwap;
    var bestGain := 0;
    var w := 0;
    while w < |weakest|
      invariant 0 <= w <= |weakest|
      invariant Leading(best, bestGain, chosen, outside, b)
      invariant forall x :: 0 <= x < w ==> RowDone(bestGain, chosen, weakest[x], strongest, b)
    {
      var i := weakest[w];
      assert i in weakest;
      WeakestArePositions(chosen, i);
      best, bestGain := TryRow(chosen, outside, strongest, running, b, i, best, bestGain);
      w := w + 1;
    }
    assert forall i :: i in weakest ==> RowDone(bestGain, chosen, i, strongest, b);
  }

  lemma ExchangeMargin(chosen: seq<Candidate>, i: nat, c: Candidate)
    requires i < |chosen|
    ensures Total(Margin, chosen[i := c]) == Total(Margin, chosen) + Gain(chosen, i, c)
  {
    TotalUpdate(Margin, chosen, i, c);
  }

  function NotById(id: nat): Candidate -> bool {
    (c: Candidate) => c.id != id
  }

  /** Every object appears once: equal identities are one object, held in one place. */
  ghost predicate Distinct(m: multiset<Candidate>) {
    && (forall c, d :: c in m && d in m && c.id == d.id ==> c == d)
    && (forall c :: m[c] <= 1)
  }

  lemma RemovesOne(chosen: multiset<Candidate>, outside: seq<Candidate>, c: Candidate)
    requires c in outside && Distinct(chosen + multiset(outside))
    ensures multiset(Filter(NotById(c.id), outside)) == multiset(outside) - multiset{c}
  {
    var both := chosen + multiset(outside);
    assert c in both;
    forall x ensures multiset(Filter(NotById(c.id), outside))[x] == (multiset(outside) - multiset{c})[x] {
      FilterMultiplicity(NotById(c.id), outside, x);
      assert both[x] <= 1;
      if x.id == c.id && x in outside {
        assert x in both;
      }
    }
  }

  lemma {:induction false} FilterShrinks(p: Candidate -> bool, s: seq<Candidate>)
    ensures |Filter(p, s)| <= |s|
    ensures (exists c :: c in s && !p(c)) ==> |Filter(p, s)| < |s|
  {
    if s != [] {
      FilterShrinks(p, s[1..]);
      assert forall c :: c in s ==> c == s[0] || c in s[1..];
    }
  }

  /** An exchange moves two objects between the sides and loses neither. */
  lemma ConservedByExchange(chosen: seq<Candidate>, outside: seq<Candidate>, i: nat, c: Candidate)
    requires i < |chosen| && c in outside
    requires Distinct(multiset(chosen) + multiset(outside))
    ensures multiset(chosen[i := c]) + multiset(Filter(NotById(c.id), outside) + [chosen[i]])
         == multiset(chosen) + multiset(outside)
  {
    RemovesOne(multiset(chosen), outside, c);
    assert c in multiset(outside);
    DropMultiset(chosen, i);
    DropMultiset(chosen[i := c], i);
    assert Drop(chosen[i := c], i) == Drop(chosen, i);
  }

  /** Everything worth something is on one side or the other. */
  ghost predicate Covers(chosen: seq<Candidate>, outside: seq<Candidate>, candidates: seq<Candidate>) {
    forall c :: c in candidates && c.margin > 0 ==> c in chosen || c in outside
  }

  lemma OutsideCovers(chosen: seq<Candidate>, candidates: seq<Candidate>)
    requires Identified(chosen + candidates)
    ensures Covers(chosen, Filter(Outstanding(Ids(chosen)), candidates), candidates)
  {
    forall c | c in candidates && c.margin > 0 && c.id in Ids(chosen) ensures c in chosen {
      var d :| d in chosen && d.id == c.id;
      assert c in chosen + candidates && d in chosen + candidates;
    }
  }

  lemma ExchangeCovers(chosen: seq<Candidate>, outside: seq<Candidate>, candidates: seq<Candidate>,
                       i: nat, c: Candidate)
    requires i < |chosen| && c in outside && Covers(chosen, outside, candidates)
    requires Identified(candidates) && From(outside, candidates)
    ensures Covers(chosen[i := c], Filter(NotById(c.id), outside) + [chosen[i]], candidates)
  {
    var next := Filter(NotById(c.id), outside) + [chosen[i]];
    forall d | d in candidates && d.margin > 0 ensures d in chosen[i := c] || d in next {
      if d in chosen {
        var j :| 0 <= j < |chosen| && chosen[j] == d;
        assert next[|next| - 1] == chosen[i];
        assert j != i ==> chosen[i := c][j] == d;
      } else {
        assert chosen[i := c][i] == c;
        assert d in Filter(NotById(c.id), outside) || d == c;
      }
    }
  }

  /** A rival is on the outside, worthless, or already part of the plan. */
  lemma NoBetterRival(chosen: seq<Candidate>, outside: seq<Candidate>, b: Budgets, i: nat, c: Candidate)
    requires |chosen| <= 32 && |outside| <= 32 && NoGainAbove(0, chosen, outside, b)
    requires i < |chosen| && Feasible(chosen[i := c], b) && (c in outside || c in chosen)
    ensures c.margin <= chosen[i].margin
  {
    if c in outside {
      WeakestArePositions(chosen, i);
      StrongestAreOutside(outside);
    } else {
      var j :| 0 <= j < |chosen| && chosen[j] == c;
      var exchanged := chosen[i := c];
      DistinctCases(exchanged);
      assert exchanged[i].caseId == exchanged[j].caseId;
    }
  }

  /** Small plans leave nothing outside the windows, so settling there is settling outright. */
  lemma SettledMeansLocallyOptimal(chosen: seq<Candidate>, outside: seq<Candidate>, candidates: seq<Candidate>,
                                   b: Budgets)
    requires |chosen| <= 32 && |outside| <= 32
    requires NoGainAbove(0, chosen, outside, b) && Covers(chosen, outside, candidates) && Profitable(chosen)
    ensures LocallyOptimal(chosen, candidates, b)
  {
    forall i, c | 0 <= i < |chosen| && c in candidates && Feasible(chosen[i := c], b)
      ensures c.margin <= chosen[i].margin
    {
      assert chosen[i] in chosen;
      if c.margin > 0 {
        NoBetterRival(chosen, outside, b, i, c);
      }
    }
  }

  /** A plan never holds more actions than there are candidates: its cases are distinct. */
  lemma {:induction false} PlanIsNoLonger(chosen: seq<Candidate>, candidates: seq<Candidate>)
    requires OnePerCase(chosen) && From(chosen, candidates)
    ensures |chosen| <= |candidates|
    decreases |chosen|
  {
    if chosen != [] {
      var c := chosen[0];
      DropRemoves(chosen, 0);
      forall k ensures Total(InCase(k), Drop(chosen, 0)) <= 1 {
        TotalDrop(InCase(k), chosen, 0);
      }
      assert c in candidates;
      FilterShrinks(OtherCase(c.caseId), candidates);
      PlanIsNoLonger(Drop(chosen, 0), Filter(OtherCase(c.caseId), candidates));
    }
  }

  function OtherCase(k: CaseId): Candidate -> bool {
    (c: Candidate) => c.caseId != k
  }

  /** What every exchange keeps: a feasible plan, with all that is worthwhile on one side. */
  ghost predicate Market(chosen: seq<Candidate>, others: seq<Candidate>, candidates: seq<Candidate>, b: Budgets) {
    && Feasible(chosen, b)
    && Profitable(chosen) && From(chosen, candidates)
    && Profitable(others) && From(others, candidates)
    && Covers(chosen, others, candidates)
  }

  lemma ExchangeKeepsMarket(chosen: seq<Candidate>, others: seq<Candidate>, candidates: seq<Candidate>,
                            b: Budgets, swap: Swap)
    requires Market(chosen, others, candidates, b) && Improves(swap, chosen, others, b) && Identified(candidates)
    ensures Market(chosen[swap.i := swap.challenger],
                   Filter(NotById(swap.challenger.id), others) + [chosen[swap.i]], candidates, b)
  {
    var i, c := swap.i, swap.challenger;
    ExchangeCovers(chosen, others, candidates, i, c);
    forall d | d in chosen[i := c] ensures d in chosen || d == c {
    }
    assert chosen[i] in chosen;
  }

  /**
   Up to four exchanges, each the best one available in its windows and each raising the
   margin. Stopping early means that no exchange in the windows helps any more.
   */
  method Improve(start: seq<Candidate>, candidates: seq<Candidate>, b: Budgets)
      returns (chosen: seq<Candidate>, ghost outside: seq<Candidate>, ghost swaps: nat)
    requires Feasible(start, b) && Profitable(start) && Identified(start + candidates)
    requires From(start, candidates)
    ensures Market(chosen, outside, candidates, b)
    ensures |chosen| == |start| && |outside| <= |candidates|
    ensures swaps <= 4 && Total(Margin, chosen) >= Total(Margin, start) + swaps
    ensures swaps == 0 ==> chosen == start
    ensures swaps < 4 ==> NoGainAbove(0, chosen, outside, b)
    ensures var first := multiset(start) + multiset(Filter(Outstanding(Ids(start)), candidates));
            Distinct(first) ==> multiset(chosen) + multiset(outside) == first
  {
    chosen := start;
    var others := Filter(Outstanding(Ids(start)), candidates);
    ghost var first := multiset(start) + multiset(others);
    outside, swaps := others, 0;
    FilterShrinks(Outstanding(Ids(start)), candidates);
    OutsideCovers(start, candidates);
    assert Identified(candidates) by {
      assert forall c :: c in candidates ==> c in start + candidates;
    }
    if others == [] {
      StrongestAreOutside(others);
      return;
    }
    var running := new Running.Of(chosen);
    var pass := 0;
    while pass < MAX_SWAP_PASSES
      invariant 0 <= pass <= MAX_SWAP_PASSES && swaps == pass
      invariant Market(chosen, others, candidates, b) && |chosen| == |start|
      invariant running.Tracks(chosen) && |others| <= |candidates|
      invariant Total(Margin, chosen) >= Total(Margin, start) + swaps
      invariant swaps == 0 ==> chosen == start
      invariant Distinct(first) ==> multiset(chosen) + multiset(others) == first
    {
      var best := BestSwap(chosen, others, running, b);
      if best.NoSwap? {
        outside := others;
        return;
      }
      var i, challenger := best.i, best.challenger;
      var replaced := chosen[i];
      ExchangeMargin(chosen, i, challenger);
      ExchangeKeepsMarket(chosen, others, candidates, b, best);
      if Distinct(first) {
        ConservedByExchange(chosen, others, i, challenger);
      }
      FilterShrinks(NotById(challenger.id), others);
      running.Replace(replaced, challenger, chosen, i);
      chosen := chosen[i := challenger];
      others := Filter(NotById(challenger.id), others) + [replaced];
      swaps := swaps + 1;
      pass := pass + 1;
    }
    outside := others;
  }
}
