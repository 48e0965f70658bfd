/**
 `_Running`: the budget state of a list under construction, kept by arithmetic instead of
 being summed again for every probe.
*/
module RunningState {
  import opened Candidates
  import opened Selection

  /** c fits on top of chosen: a free case, both budgets, and its customer's cap. */
  predicate Fits(chosen: seq<Candidate>, c: Candidate, b: Budgets) {
    && Admits(chosen, c, b.perCustomer)
    && Total(Contacts, chosen) + c.contacts <= b.contacts
    && Total(Discount, chosen) + c.discount <= b.discount
  }

  /** On a feasible list, fitting means exactly that the longer list is feasible. */
  lemma FitsExactly(chosen: seq<Candidate>, c: Candidate, b: Budgets)
    requires Feasible(chosen, b)
    ensures Fits(chosen, c, b) <==> Feasible(chosen + [c], b)
  {
    AdmitsExactly(chosen, c, b.perCustomer);
    TotalAppend(Contacts, chosen, c);
    TotalAppend(Discount, chosen, c);
  }

  /** A refusal stays a refusal as the list grows. */
  lemma RefusalPersists(chosen: seq<Candidate>, more: seq<Candidate>, c: Candidate, b: Budgets)
    requires Fits(chosen + more, c, b)
    ensures Fits(chosen, c, b)
  {
    forall m: Measure | !m.Margin?
      ensures 0 <= Total(m, chosen) <= Total(m, chosen + more)
    {
      TotalConcat(m, chosen, more);
      TotalNonNegative(m, chosen);
      TotalNonNegative(m, more);
    }
  }

  /** An exchange on a feasible list is allowed exactly when the exchanged list is feasible. */
  lemma ExchangeExactly(chosen: seq<Candidate>, i: nat, c: Candidate, b: Budgets)
    requires i < |chosen| && Feasible(chosen, b)
    ensures Fits(Drop(chosen, i), c, b) <==> Feasible(chosen[i := c], b)
  {
    DropAdmissible(chosen, i, b.perCustomer);
    var rest := Drop(chosen, i);
    FitsExactly(rest, c, b);
    forall m: Measure ensures Total(m, chosen[i := c]) == Total(m, rest + [c]) {
      TotalUpdate(m, chosen, i, c);
      TotalDrop(m, chosen, i);
      TotalAppend(m, rest, c);
    }
  }

  lemma CaseIsCounted(s: seq<Candidate>, k: CaseId)
    ensures Total(InCase(k), s) > 0 <==> exists c :: c in s && c.caseId == k
  {
    if Total(InCase(k), s) > 0 {
      var i := TotalWitness(InCase(k), s);
      assert s[i] in s;
    }
    if c :| c in s && c.caseId == k {
      TotalAtLeast(InCase(k), s, c);
    }
  }

  /** The per-customer table holds exactly the customers contacted, with their counts. */
  ghost predicate Counts(table: map<CustomerId, int>, chosen: seq<Candidate>) {
    && (forall x :: x in table <==> Total(ContactsTo(x), chosen) > 0)
    && (forall x :: x in table ==> table[x] == Total(ContactsTo(x), chosen))
  }

  function Credited(table: map<CustomerId, int>, c: Candidate): map<CustomerId, int> {
    if c.contacts > 0 then table[c.customer := Lookup(table, c.customer) + c.contacts] else table
  }

  function Debited(table: map<CustomerId, int>, c: Candidate): map<CustomerId, int> {
    var left := Lookup(table, c.customer) - c.contacts;
    if c.contacts == 0 then table
    else if left > 0 then table[c.customer := left]
    else table - {c.customer}
  }

  function Lookup(table: map<CustomerId, int>, x: CustomerId): int {
    if x in table then table[x] else 0
  }

  lemma LookupCounts(table: map<CustomerId, int>, chosen: seq<Candidate>, x: CustomerId)
    requires Counts(table, chosen)
    ensures Lookup(table, x) == Total(ContactsTo(x), chosen)
  {
    TotalNonNegative(ContactsTo(x), chosen);
  }

  lemma CreditedCounts(table: map<CustomerId, int>, chosen: seq<Candidate>, c: Candidate, longer: seq<Candidate>)
    requires Counts(table, chosen)
    requires forall x :: Total(ContactsTo(x), longer) == Total(ContactsTo(x), chosen) + ContactsTo(x).Of(c)
    ensures Counts(Credited(table, c), longer)
  {
    LookupCounts(table, chosen, c.customer);
    TotalNonNegative(ContactsTo(c.customer), chosen);
  }

  lemma DebitedCounts(table: map<CustomerId, int>, chosen: seq<Candidate>, i: nat)
    requires i < |chosen| && Counts(table, chosen)
    ensures Counts(Debited(table, chosen[i]), Drop(chosen, i))
  {
    LookupCounts(table, chosen, chosen[i].customer);
    forall x
      ensures Total(ContactsTo(x), Drop(chosen, i)) == Total(ContactsTo(x), chosen) - ContactsTo(x).Of(chosen[i]) {
      TotalDrop(ContactsTo(x), chosen, i);
    }
  }

  lemma ReplacedTotal(m: Measure, chosen: seq<Candidate>, i: nat, c: Candidate)
    requires i < |chosen| && !m.Margin?
    ensures Total(m, Drop(chosen, i)) == Total(m, chosen) - m.Of(chosen[i]) && Total(m, Drop(chosen, i)) >= 0
    ensures Total(m, chosen[i := c]) == Total(m, Drop(chosen, i)) + m.Of(c)
  {
    TotalDrop(m, chosen, i);
    TotalNonNegative(m, Drop(chosen, i));
    TotalUpdate(m, chosen, i, c);
  }

  /** The cases of the exchanged list: the one given up is gone, since no other action had it. */
  lemma ReplacedCases(cases: set<CaseId>, chosen: seq<Candidate>, i: nat, c: Candidate)
    requires i < |chosen| && OnePerCase(chosen)
    requires forall k :: k in cases <==> Total(InCase(k), chosen) > 0
    ensures forall k :: k in (cases - {chosen[i].caseId}) + {c.caseId} <==> Total(InCase(k), chosen[i := c]) > 0
  {
    forall k ensures k in (cases - {chosen[i].caseId}) + {c.caseId} <==> Total(InCase(k), chosen[i := c]) > 0 {
      ReplacedTotal(InCase(k), chosen, i, c);
      assert Total(InCase(k), chosen) <= 1;
    }
  }

  class Running {
    var contacts: int
    var discount: int
    var cases: set<CaseId>
    var perCustomer: map<CustomerId, int>

    /** The fields are what summing the list would give. */
    ghost predicate Tracks(chosen: seq<Candidate>)
      reads this
    {
      && contacts == Total(Contacts, chosen)
      && discount == Total(Discount, chosen)
      && (forall k :: k in cases <==> Total(InCase(k), chosen) > 0)
      && Counts(perCustomer, chosen)
    }

    constructor ()
      ensures Tracks([])
    {
      contacts, discount, cases, perCustomer := 0, 0, {}, map[];
    }

    /** The state of an existing list. */
    constructor Of(chosen: seq<Candidate>)
      ensures Tracks(chosen)
    {
      contacts, discount, cases, perCustomer := 0, 0, {}, map[];
      new;
      var i := 0;
      while i < |chosen|
        invariant 0 <= i <= |chosen|
        invariant Tracks(chosen[..i])
      {
        Add(chosen[i], chosen[..i]);
        assert chosen[..i] + [chosen[i]] == chosen[..i + 1];
        i := i + 1;
      }
      assert chosen[..i] == chosen;
    }

    method Add(c: Candidate, ghost chosen: seq<Candidate>)
      requires Tracks(chosen)
      modifies this
      ensures Tracks(chosen + [c])
    {
      forall x ensures Total(ContactsTo(x), chosen + [c]) == Total(ContactsTo(x), chosen) + ContactsTo(x).Of(c) {
        TotalAppend(ContactsTo(x), chosen, c);
      }
      CreditedCounts(perCustomer, chosen, c, chosen + [c]);
      TotalAppend(Contacts, chosen, c);
      TotalAppend(Discount, chosen, c);
      forall k ensures Total(InCase(k), chosen + [c]) > 0 <==> Total(InCase(k), chosen) > 0 || k == c.caseId {
        TotalAppend(InCase(k), chosen, c);
        TotalNonNegative(InCase(k), chosen);
      }
      contacts := contacts + c.contacts;
      discount := discount + c.discount;
      cases := cases + {c.caseId};
      perCustomer := Credited(perCustomer, c);
    }

    method FitsNow(c: Candidate, b: Budgets, ghost chosen: seq<Candidate>) returns (fits: bool)
      requires Tracks(chosen)
      ensures fits <==> Fits(chosen, c, b)
    {
      LookupCounts(perCustomer, chosen, c.customer);
      TotalNonNegative(InCase(c.caseId), chosen);
      if c.caseId in cases {
        return false;
      }
      if contacts + c.contacts > b.contacts {
        return false;
      }
      if discount + c.discount > b.discount {
        return false;
      }
      if c.contacts > 0 {
        var used := Lookup(perCustomer, c.customer);
        if used + c.contacts > b.perCustomer {
          return false;
        }
      }
      return true;
    }

    /** Would c fit if chosen[i] were removed first? */
    method FitsReplacing(out: Candidate, c: Candidate, b: Budgets, ghost chosen: seq<Candidate>, ghost i: nat)
        returns (fits: bool)
      requires Tracks(chosen) && OnePerCase(chosen) && i < |chosen| && chosen[i] == out
      ensures fits <==> Fits(Drop(chosen, i), c, b)
    {
      forall m: Measure | !m.Margin?
        ensures Total(m, Drop(chosen, i)) == Total(m, chosen) - m.Of(out) && Total(m, Drop(chosen, i)) >= 0
      {
        TotalDrop(m, chosen, i);
        TotalNonNegative(m, Drop(chosen, i));
      }
      LookupCounts(perCustomer, chosen, c.customer);
      assert Total(InCase(out.caseId), chosen) == 1;
      if c.caseId != out.caseId && c.caseId in cases {
        return false;
      }
      if contacts - out.contacts + c.contacts > b.contacts {
        return false;
      }
      if discount - out.discount + c.discount > b.discount {
        return false;
      }
      if c.contacts > 0 {
        var used := Lookup(perCustomer, c.customer);
        if out.customer == c.customer {
          used := used - out.contacts;
        }
        if used + c.contacts > b.perCustomer {
          return false;
        }
      }
      return true;
    }

    /** Applies an accepted exchange. */
    method Replace(out: Candidate, c: Candidate, ghost chosen: seq<Candidate>, ghost i: nat)
      requires Tracks(chosen) && OnePerCase(chosen) && i < |chosen| && chosen[i] == out
      modifies this
      ensures Tracks(chosen[i := c])
    {
      ghost var rest := Drop(chosen, i);
      forall m: Measure | !m.Margin? ensures Total(m, chosen[i := c]) == Total(m, rest) + m.Of(c) {
        ReplacedTotal(m, chosen, i, c);
      }
      ReplacedTotal(Contacts, chosen, i, c);
      ReplacedTotal(Discount, chosen, i, c);
      ReplacedCases(cases, chosen, i, c);
      contacts := contacts + c.contacts - out.contacts;
      discount := discount + c.discount - out.discount;
      cases := (cases - {out.caseId}) + {c.caseId};
      DebitedCounts(perCustomer, chosen, i);
      perCustomer := Debited(perCustomer, out);
      CreditedCounts(perCustomer, rest, c, chosen[i := c]);
      perCustomer := Credited(perCustomer, c);
    }
  }

  /** Two states that track the same list are equal field by field. */
  lemma TrackingIsExact(r: Running, s: Running, chosen: seq<Candidate>)
    requires r.Tracks(chosen) && s.Tracks(chosen)
    ensures r.contacts == s.contacts && r.discount == s.discount
    ensures r.cases == s.cases && r.perCustomer == s.perCustomer
  {
    assert r.perCustomer.Keys == s.perCustomer.Keys;
  }
}
