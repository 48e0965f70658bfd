/**
 `_bisect`: find a multiplier that brings one budget within its limit.

 Usage is not assumed to fall as the price rises. What the search guarantees is a bracket:
 the price it returns satisfies the budget, and a price just below it does not.
*/
module Bisection {
  import opened Candidates
  import opened Selection
  import opened Passes

  const MAX_BISECTION_STEPS := 60

  datatype Priced = ContactBudget | DiscountBudget {
    function Resource(): Measure {
      if ContactBudget? then Contacts else Discount
    }

    function Limit(b: Budgets): nat {
      if ContactBudget? then b.contacts else b.discount
    }

    function At(lam: real, other: real): Price {
      if ContactBudget? then Price(lam, other) else Price(other, lam)
    }
  }

  /** What the selection draws on a budget when its price is lam and the other's is fixed. */
  function Usage(candidates: seq<Candidate>, b: Budgets, which: Priced, other: real, lam: real): int {
    Total(which.Resource(), Selected(candidates, b.perCustomer, which.At(lam, other)))
  }

  /** The bracket's upper end after n growths. */
  function Grown(n: nat): real {
    if n == 0 then 1.0 else 4.0 * Grown(n - 1)
  }

  /** The first power of four past 10^12, where the search stops growing its bracket. */
  const GROWTHS := 20
  const CEILING := 1099511627776.0

  /** The widest bracket that n halvings bring down to 2^-20. */
  function Halvable(n: nat): real {
    if n == 0 then 1.0 / 1048576.0 else 2.0 * Halvable(n - 1)
  }

  lemma HalvableTen(n: nat)
    ensures Halvable(n + 10) == 1024.0 * Halvable(n)
  {
    assert Halvable(n + 2) == 4.0 * Halvable(n);
    assert Halvable(n + 4) == 4.0 * Halvable(n + 2);
    assert Halvable(n + 6) == 4.0 * Halvable(n + 4);
    assert Halvable(n + 8) == 4.0 * Halvable(n + 6);
    assert Halvable(n + 10) == 4.0 * Halvable(n + 8);
  }

  /** Sixty halvings bring any bracket the growth loop can reach down to 2^-20. */
  lemma SixtyHalvingsSuffice()
    ensures Halvable(MAX_BISECTION_STEPS) == CEILING
  {
    HalvableTen(0);
    HalvableTen(10);
    HalvableTen(20);
    HalvableTen(30);
    HalvableTen(40);
    HalvableTen(50);
  }

  lemma GrownFive(n: nat)
    ensures Grown(n + 5) == 1024.0 * Grown(n)
  {
    assert Grown(n + 1) == 4.0 * Grown(n);
    assert Grown(n + 3) == 16.0 * Grown(n + 1);
    assert Grown(n + 5) == 16.0 * Grown(n + 3);
  }

  lemma {:induction false} GrownIncreases(k: nat, n: nat)
    requires k <= n
    ensures 1.0 <= Grown(k) <= Grown(n)
    decreases n
  {
    if n > 0 {
      if k == n {
        GrownIncreases(k - 1, n - 1);
      } else {
        GrownIncreases(k, n - 1);
      }
    }
  }

  /** Growth goes on exactly until the ceiling, the twentieth power of four. */
  lemma GrowthReachesCeiling(k: nat)
    requires k <= GROWTHS
    ensures 1.0 <= Grown(k) <= CEILING
    ensures Grown(k) < 1000000000000.0 ==> k < GROWTHS && Grown(k + 1) == 4.0 * Grown(k) <= CEILING
    ensures Grown(k) >= 1000000000000.0 ==> Grown(k) == CEILING
  {
    GrownFive(0);
    GrownFive(5);
    GrownFive(10);
    GrownFive(15);
    GrownIncreases(k, 20);
    if k < 20 {
      GrownIncreases(k, 19);
      GrownIncreases(k + 1, 20);
      assert Grown(20) == 4.0 * Grown(19);
    }
  }

  lemma TooDear(c: Candidate, which: Priced, other: real, lam: real)
    requires lam >= 0.0 && other >= 0.0 && c.margin as real <= lam
    requires which.Resource().Of(c) >= 1
    ensures !which.At(lam, other).Clears(c)
  {
    if which.ContactBudget? {
      PriceExceeds(lam, c.contacts);
      PriceExceeds(other, c.discount);
      assert which.At(lam, other) == Price(lam, other);
    } else {
      PriceExceeds(other, c.contacts);
      PriceExceeds(lam, c.discount);
      var cheap, dear := other * c.contacts as real, lam * c.discount as real;
      assert cheap >= 0.0 && dear >= lam;
      assert which.At(lam, other).Reduced(c) == c.margin as real - cheap - dear;
    }
  }

  /** A price no margin exceeds suppresses everything that draws on the budget. */
  lemma CeilingSuppresses(candidates: seq<Candidate>, b: Budgets, which: Priced, other: real, lam: real)
    requires lam >= 0.0 && other >= 0.0
    requires forall c :: c in candidates ==> c.margin as real <= lam
    ensures Usage(candidates, b, which, other, lam) == 0
  {
    var p := which.At(lam, other);
    var chosen := Selected(candidates, b.perCustomer, p);
    SelectedAdmissible(candidates, b.perCustomer, p);
    TotalNonNegative(which.Resource(), chosen);
    if Total(which.Resource(), chosen) > 0 {
      var i := TotalWitness(which.Resource(), chosen);
      assert chosen[i] in chosen;
      TooDear(chosen[i], which, other, lam);
    }
  }

  lemma PriceExceeds(price: real, units: int)
    requires price >= 0.0 && units >= 0
    ensures price * units as real >= 0.0
    ensures units >= 1 ==> price * units as real >= price
  {
    if units >= 1 {
      assert price * units as real == price + price * (units - 1) as real;
      assert price * (units - 1) as real >= 0.0;
    }
  }

  predicate Narrow(lo: real, hi: real) {
    hi - lo <= 0.000000001 * (if hi > 1.0 then hi else 1.0)
  }

  /** As tight as the search makes a bracket: narrow, or halved as often as it may be. */
  predicate Tight(lo: real, hi: real) {
    Narrow(lo, hi) || hi - lo <= 1.0 / 1048576.0
  }

  /** lo breaks the budget, hi respects it (or is the ceiling), and little lies between. */
  ghost predicate Bracket(candidates: seq<Candidate>, b: Budgets, which: Priced, other: real, lo: real, hi: real) {
    && 0.0 <= lo < hi <= CEILING
    && Usage(candidates, b, which, other, lo) > which.Limit(b)
    && (Usage(candidates, b, which, other, hi) <= which.Limit(b) || hi == CEILING)
  }

  /** The price a search settles on: zero exactly if that suffices, else the upper end of a tight bracket. */
  ghost predicate Settles(candidates: seq<Candidate>, b: Budgets, which: Priced, other: real, lo: real, hi: real) {
    && (hi == 0.0 <==> Usage(candidates, b, which, other, 0.0) <= which.Limit(b))
    && (hi != 0.0 ==> Bracket(candidates, b, which, other, lo, hi) && Tight(lo, hi))
  }

  /** The half of a bracket that the middle's usage selects is a bracket of half the width. */
  lemma BracketHalves(candidates: seq<Candidate>, b: Budgets, which: Priced, other: real, lo: real, hi: real, mid: real)
    requires Bracket(candidates, b, which, other, lo, hi) && mid == (lo + hi) / 2.0
    ensures hi - mid == mid - lo == (hi - lo) / 2.0
    ensures if Usage(candidates, b, which, other, mid) > which.Limit(b)
              then Bracket(candidates, b, which, other, mid, hi)
            else Bracket(candidates, b, which, other, lo, mid)
  {
  }

  class Probe {
    const candidates: seq<Candidate>
    const b: Budgets
    const which: Priced
    const other: real
    var cache: map<real, int>

    ghost predicate Valid()
      reads this
    {
      forall lam :: lam in cache ==> cache[lam] == Usage(candidates, b, which, other, lam)
    }

    constructor (candidates: seq<Candidate>, b: Budgets, which: Priced, other: real)
      ensures Valid()
      ensures this.candidates == candidates && this.b == b && this.which == which && this.other == other
    {
      this.candidates, this.b, this.which, this.other := candidates, b, which, other;
      cache := map[];
    }

    /** Usage at a price, remembered between probes. */
    method UsageCached(lam: real) returns (used: int)
      requires Valid()
      modifies this
      ensures Valid() && used == Usage(candidates, b, which, other, lam)
    {
      if lam !in cache {
        var chosen := Select(candidates, b, which.At(lam, other));
        cache := cache[lam := Total(which.Resource(), chosen)];
      }
      used := cache[lam];
    }
  }

  /** Grows the upper end fourfold until the budget holds or 10^12 is passed. */
  method Widen(probe: Probe, limit: nat) returns (hi: real)
    requires probe.Valid() && limit == probe.which.Limit(probe.b)
    requires Usage(probe.candidates, probe.b, probe.which, probe.other, 0.0) > limit
    modifies probe
    ensures probe.Valid()
    ensures Bracket(probe.candidates, probe.b, probe.which, probe.other, 0.0, hi)
  {
    hi := 1.0;
    var used := probe.UsageCached(hi);
    ghost var k := 0;
    GrowthReachesCeiling(0);
    while used > limit && hi < 1000000000000.0
      invariant probe.Valid()
      invariant used == Usage(probe.candidates, probe.b, probe.which, probe.other, hi)
      invariant 0 <= k <= GROWTHS && hi == Grown(k) && 1.0 <= hi <= CEILING
      decreases GROWTHS - k
    {
      GrowthReachesCeiling(k);
      hi := hi * 4.0;
      k := k + 1;
      used := probe.UsageCached(hi);
    }
    GrowthReachesCeiling(k);
  }

  /** If no margin passes the ceiling, the upper end of a bracket respects the budget. */
  lemma BracketRespects(candidates: seq<Candidate>, b: Budgets, which: Priced, other: real, lo: real, hi: real)
    requires Bracket(candidates, b, which, other, lo, hi) && other >= 0.0
    requires forall c :: c in candidates ==> c.margin as real <= CEILING
    ensures Usage(candidates, b, which, other, hi) <= which.Limit(b)
  {
    if hi == CEILING {
      CeilingSuppresses(candidates, b, which, other, CEILING);
    }
  }

  method Bisect(candidates: seq<Candidate>, b: Budgets, other: real, which: Priced)
      returns (hi: real, ghost lo: real)
    ensures hi >= 0.0 && Settles(candidates, b, which, other, lo, hi)
    ensures hi > 0.0 ==>
              hi - lo <= 0.000000001 || hi - lo <= 0.000000001 * hi || hi - lo <= 1.0 / 1048576.0
    ensures other >= 0.0 && (forall c :: c in candidates ==> c.margin as real <= CEILING) ==>
              Usage(candidates, b, which, other, hi) <= which.Limit(b)
  {
    var limit := which.Limit(b);
    var probe := new Probe(candidates, b, which, other);
    var used := probe.UsageCached(0.0);
    if used <= limit {
      return 0.0, 0.0;
    }
    hi := Widen(probe, limit);
    hi, lo := Narrowed(probe, limit, hi);
    if other >= 0.0 && (forall c :: c in candidates ==> c.margin as real <= CEILING) {
      BracketRespects(candidates, b, which, other, lo, hi);
    }
  }

  /** One step: the half of the bracket on which the budget still breaks at one end only. */
  method HalveOnce(probe: Probe, limit: nat, low: real, hi: real) returns (left: real, right: real)
    requires probe.Valid() && limit == probe.which.Limit(probe.b)
    requires Bracket(probe.candidates, probe.b, probe.which, probe.other, low, hi)
    modifies probe
    ensures probe.Valid()
    ensures Bracket(probe.candidates, probe.b, probe.which, probe.other, left, right)
    ensures right - left == (hi - low) / 2.0
  {
    var mid := (low + hi) / 2.0;
    BracketHalves(probe.candidates, probe.b, probe.which, probe.other, low, hi, mid);
    var used := probe.UsageCached(mid);
    if used > limit {
      left, right := mid, hi;
    } else {
      left, right := low, mid;
    }
  }

  /** Halves the bracket (0, start] until it is narrow or the steps run out. */
  method Narrowed(probe: Probe, limit: nat, start: real) returns (hi: real, low: real)
    requires probe.Valid() && limit == probe.which.Limit(probe.b)
    requires Bracket(probe.candidates, probe.b, probe.which, probe.other, 0.0, start)
    modifies probe
    ensures probe.Valid()
    ensures Bracket(probe.candidates, probe.b, probe.which, probe.other, low, hi)
    ensures Tight(low, hi)
  {
    SixtyHalvingsSuffice();
    low, hi := 0.0, start;
    var step := 0;
    while step < MAX_BISECTION_STEPS
      invariant probe.Valid()
      invariant 0 <= step <= MAX_BISECTION_STEPS
      invariant Bracket(probe.candidates, probe.b, probe.which, probe.other, low, hi)
      invariant hi - low <= Halvable(MAX_BISECTION_STEPS - step)
    {
      low, hi := HalveOnce(probe, limit, low, hi);
      step := step + 1;
      if Narrow(low, hi) {
        return;
      }
    }
  }
}
