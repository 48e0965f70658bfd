/**
 The online allocator: one candidate at a time, decided against a fixed price and the
 budgets that are left.
*/
module Streaming {
  import opened Candidates
  import opened Selection
  import opened Sorting
  import opened RunningState
  import opened Passes
  import opened BruteForce

  datatype Verdict = Funded | BelowPrice | BudgetExhausted | CustomerCapped | CaseAlreadyFunded

  datatype Offer = Offer(verdict: Verdict, reduced: real)

  /** The first check that refuses c, given what has been funded so far. */
  function Judge(funded: seq<Candidate>, c: Candidate, p: Price, b: Budgets): Verdict {
    if Total(InCase(c.caseId), funded) > 0 then CaseAlreadyFunded
    else if p.Reduced(c) <= 0.0 then BelowPrice
    else if Total(Contacts, funded) + c.contacts > b.contacts then BudgetExhausted
    else if Total(Discount, funded) + c.discount > b.discount then BudgetExhausted
    else if c.contacts > 0 && Total(ContactsTo(c.customer), funded) + c.contacts > b.perCustomer then CustomerCapped
    else Funded
  }

  /** Some funded action is on the same case. */
  predicate CaseTaken(funded: seq<Candidate>, c: Candidate) {
    exists i :: 0 <= i < |funded| && funded[i].caseId == c.caseId
  }

  predicate OverBudget(funded: seq<Candidate>, c: Candidate, b: Budgets) {
    Total(Contacts, funded + [c]) > b.contacts || Total(Discount, funded + [c]) > b.discount
  }

  predicate OverCap(funded: seq<Candidate>, c: Candidate, b: Budgets) {
    c.contacts == 1 && Total(ContactsTo(c.customer), funded + [c]) > b.perCustomer
  }

  /**
   The verdict names the first of the four obstacles there is, and funds if there is none; the
   value reported is the margin less what the action draws at the prices.
  */
  ghost predicate Explains(offer: Offer, funded: seq<Candidate>, c: Candidate, p: Price, b: Budgets) {
    var value := c.margin as real - p.contact * c.contacts as real - p.discount * c.discount as real;
    var taken, cheap := CaseTaken(funded, c), value <= 0.0;
    var broke, capped := OverBudget(funded, c, b), OverCap(funded, c, b);
    && offer.reduced == value
    && (offer.verdict.CaseAlreadyFunded? <==> taken)
    && (offer.verdict.BelowPrice? <==> !taken && cheap)
    && (offer.verdict.BudgetExhausted? <==> !taken && !cheap && broke)
    && (offer.verdict.CustomerCapped? <==> !taken && !cheap && !broke && capped)
    && (offer.verdict.Funded? <==> !taken && !cheap && !broke && !capped)
  }

  lemma JudgeExplains(funded: seq<Candidate>, c: Candidate, p: Price, b: Budgets)
    ensures Explains(Offer(Judge(funded, c, p, b), p.Reduced(c)), funded, c, p, b)
  {
    CaseIsCounted(funded, c.caseId);
    TotalAppend(Contacts, funded, c);
    TotalAppend(Discount, funded, c);
    TotalAppend(ContactsTo(c.customer), funded, c);
  }

  /** What a stream of offers leaves funded. */
  function Streamed(stream: seq<Candidate>, funded: seq<Candidate>, p: Price, b: Budgets): seq<Candidate> {
    if stream == [] then funded
    else Streamed(stream[1..], if Judge(funded, stream[0], p, b).Funded? then funded + [stream[0]] else funded, p, b)
  }

  function Count(table: map<Verdict, nat>, v: Verdict): nat {
    if v in table then table[v] else 0
  }

  function Refused(table: map<Verdict, nat>): nat {
    Count(table, BelowPrice) + Count(table, BudgetExhausted) + Count(table, CustomerCapped)
    + Count(table, CaseAlreadyFunded)
  }

  /** Running totals that agree with the list they stand for. */
  ghost predicate Books(contacts: int, discount: int, margin: int, cases: set<CaseId>, table: map<CustomerId, int>,
                        funded: seq<Candidate>) {
    && contacts == Total(Contacts, funded)
    && discount == Total(Discount, funded)
    && margin == Total(Margin, funded)
    && (forall k :: k in cases <==> Total(InCase(k), funded) > 0)
    && Counts(table, funded)
  }

  lemma BooksExtend(contacts: int, discount: int, margin: int, cases: set<CaseId>, table: map<CustomerId, int>,
                    funded: seq<Candidate>, c: Candidate)
    requires Books(contacts, discount, margin, cases, table, funded)
    ensures Books(contacts + c.contacts, discount + c.discount, margin + c.margin, cases + {c.caseId},
                  Credited(table, c), funded + [c])
  {
    forall x ensures Total(ContactsTo(x), funded + [c]) == Total(ContactsTo(x), funded) + ContactsTo(x).Of(c) {
      TotalAppend(ContactsTo(x), funded, c);
    }
    CreditedCounts(table, funded, c, funded + [c]);
    forall k ensures Total(InCase(k), funded + [c]) > 0 <==> Total(InCase(k), funded) > 0 || k == c.caseId {
      TotalAppend(InCase(k), funded, c);
      TotalNonNegative(InCase(k), funded);
    }
    TotalAppend(Contacts, funded, c);
    TotalAppend(Discount, funded, c);
    TotalAppend(Margin, funded, c);
  }

  class StreamingAllocator {
    const price: Price
    const budgets: Budgets
    var contactsUsed: int
    var discountUsed: int
    var fundedMargin: int
    var cases: set<CaseId>
    var perCustomer: map<CustomerId, int>
    var refusals: map<Verdict, nat>
    ghost var funded: seq<Candidate>
    ghost var offers: nat

    ghost predicate Valid()
      reads this
    {
      && Feasible(funded, budgets) && (forall c :: c in funded ==> price.Clears(c))
      && Books(contactsUsed, discountUsed, fundedMargin, cases, perCustomer, funded)
      && offers == |funded| + Refused(refusals)
    }

    constructor (price: Price, budgets: Budgets)
      ensures Valid() && funded == [] && offers == 0
      ensures this.price == price && this.budgets == budgets
    {
      this.price, this.budgets := price, budgets;
      contactsUsed, discountUsed, fundedMargin := 0, 0, 0;
      cases, perCustomer, refusals := {}, map[], map[];
      funded, offers := [], 0;
    }

    method MakeOffer(c: Candidate) returns (offer: Offer)
      requires Valid()
      modifies this
      ensures Valid()
      ensures offer == Offer(Judge(old(funded), c, price, budgets), price.Reduced(c))
      ensures Explains(offer, old(funded), c, price, budgets)
      ensures funded == if offer.verdict.Funded? then old(funded) + [c] else old(funded)
      ensures offers == old(offers) + 1
      ensures forall v :: Count(refusals, v) == Count(old(refusals), v)
                                              + if v == offer.verdict && !v.Funded? then 1 else 0
    {
      var reduced := price.Reduced(c);
      JudgeExplains(funded, c, price, budgets);
      LookupCounts(perCustomer, funded, c.customer);
      TotalNonNegative(InCase(c.caseId), funded);
      if c.caseId in cases {
        offer := Refuse(CaseAlreadyFunded, reduced);
        return;
      }
      if reduced <= 0.0 {
        offer := Refuse(BelowPrice, reduced);
        return;
      }
      if contactsUsed + c.contacts > budgets.contacts {
        offer := Refuse(BudgetExhausted, reduced);
        return;
      }
      if discountUsed + c.discount > budgets.discount {
        offer := Refuse(BudgetExhausted, reduced);
        return;
      }
      if c.contacts > 0 {
        var used := Lookup(perCustomer, c.customer);
        if used + c.contacts > budgets.perCustomer {
          offer := Refuse(CustomerCapped, reduced);
          return;
        }
      }
      FundedExactly(funded, c, price, budgets);
      Fund(c);
      offer := Offer(Funded, reduced);
    }

    /** Books an action that clears its price and fits. */
    method Fund(c: Candidate)
      requires Valid() && price.Clears(c) && Fits(funded, c, budgets)
      modifies this
      ensures Valid() && funded == old(funded) + [c] && offers == old(offers) + 1 && refusals == old(refusals)
    {
      FitsExactly(funded, c, budgets);
      BooksExtend(contactsUsed, discountUsed, fundedMargin, cases, perCustomer, funded, c);
      contactsUsed := contactsUsed + c.contacts;
      discountUsed := discountUsed + c.discount;
      fundedMargin := fundedMargin + c.margin;
      cases := cases + {c.caseId};
      perCustomer := Credited(perCustomer, c);
      funded, offers := funded + [c], offers + 1;
    }

    method Refuse(verdict: Verdict, reduced: real) returns (offer: Offer)
      requires Valid() && !verdict.Funded?
      modifies `refusals, `offers
      ensures Valid() && offers == old(offers) + 1
      ensures refusals == old(refusals)[verdict := Count(old(refusals), verdict) + 1]
      ensures offer == Offer(verdict, reduced)
    {
      refusals := refusals[verdict := Count(refusals, verdict) + 1];
      offers := offers + 1;
      offer := Offer(verdict, reduced);
    }

    /** Offers a whole stream, in the order it arrives. */
    method OfferAll(stream: seq<Candidate>)
      requires Valid()
      modifies this
      ensures Valid()
      ensures funded == Streamed(stream, old(funded), price, budgets)
      ensures offers == old(offers) + |stream|
    {
      var i := 0;
      while i < |stream|
        invariant 0 <= i <= |stream|
        invariant Valid() && offers == old(offers) + i
        invariant Streamed(stream[i..], funded, price, budgets) == Streamed(stream, old(funded), price, budgets)
      {
        var offer := MakeOffer(stream[i]);
        assert stream[i..][1..] == stream[i + 1..];
        i := i + 1;
      }
    }
  }

  lemma FundedExactly(funded: seq<Candidate>, c: Candidate, p: Price, b: Budgets)
    ensures Judge(funded, c, p, b).Funded? <==> p.Clears(c) && Fits(funded, c, b)
  {
    TotalNonNegative(InCase(c.caseId), funded);
  }

  /** The online rule is the batch fill, applied to what clears its price. */
  lemma {:induction false} StreamedIsFitting(stream: seq<Candidate>, funded: seq<Candidate>, p: Price, b: Budgets)
    ensures Streamed(stream, funded, p, b) == TakeFitting(Filter(ClearsAt(p), stream), funded, b)
    decreases |stream|
  {
    if stream != [] {
      var c := stream[0];
      FundedExactly(funded, c, p, b);
      StreamedIsFitting(stream[1..], if Judge(funded, c, p, b).Funded? then funded + [c] else funded, p, b);
      var cleared := Filter(ClearsAt(p), stream[1..]);
      assert ([c] + cleared)[1..] == cleared;
    }
  }

  /** Any arrival order is safe, and no arrival order beats the true optimum. */
  lemma StreamingIsSafe(stream: seq<Candidate>, p: Price, b: Budgets, optimum: int)
    requires IsOptimum(optimum, stream, b)
    ensures Feasible(Streamed(stream, [], p, b), b) && From(Streamed(stream, [], p, b), stream)
    ensures Total(Margin, Streamed(stream, [], p, b)) <= optimum
  {
    StreamedIsFitting(stream, [], p, b);
    EmptyFeasible(b);
    var more := TakeFittingExtends(Filter(ClearsAt(p), stream), [], b);
    assert [] + more == more;
  }

  lemma {:induction false} TakeExtends(xs: seq<Candidate>, chosen: seq<Candidate>, cap: nat)
      returns (more: seq<Candidate>)
    ensures Take(xs, chosen, cap) == chosen + more
    decreases |xs|
  {
    if xs == [] {
      more := [];
      assert chosen + more == chosen;
    } else {
      var next := if Admits(chosen, xs[0], cap) then chosen + [xs[0]] else chosen;
      var rest := TakeExtends(xs[1..], next, cap);
      more := next[|chosen|..] + rest;
      assert chosen + more == next + rest;
    }
  }

  /** If the unbudgeted scan ends within budget, every step of it was within budget. */
  lemma {:induction false} BudgetsNeverBite(xs: seq<Candidate>, chosen: seq<Candidate>, b: Budgets)
    requires WithinBudgets(Take(xs, chosen, b.perCustomer), b)
    ensures TakeFitting(xs, chosen, b) == Take(xs, chosen, b.perCustomer)
    decreases |xs|
  {
    if xs != [] {
      var next := if Admits(chosen, xs[0], b.perCustomer) then chosen + [xs[0]] else chosen;
      var more := TakeExtends(xs[1..], next, b.perCustomer);
      forall m: Measure | m.Contacts? || m.Discount? ensures Total(m, next) <= Total(m, next + more) {
        TotalConcat(m, next, more);
        TotalNonNegative(m, more);
      }
      TotalAppend(Contacts, chosen, xs[0]);
      TotalAppend(Discount, chosen, xs[0]);
      BudgetsNeverBite(xs[1..], next, b);
    }
  }

  /**
   Offered in the batch order at the same prices, the online rule funds exactly the batch
   selection if and only if that selection fits the budgets.
   */
  lemma StreamingRefinesSelection(candidates: seq<Candidate>, stream: seq<Candidate>, p: Price, b: Budgets)
    requires Filter(ClearsAt(p), stream) == Scored(candidates, p)
    ensures Streamed(stream, [], p, b) == Selected(candidates, b.perCustomer, p)
       <==> WithinBudgets(Selected(candidates, b.perCustomer, p), b)
  {
    StreamedIsFitting(stream, [], p, b);
    var xs := Scored(candidates, p);
    if WithinBudgets(Take(xs, [], b.perCustomer), b) {
      BudgetsNeverBite(xs, [], b);
    }
    EmptyFeasible(b);
    var more := TakeFittingExtends(xs, [], b);
    assert [] + more == more;
  }
}
