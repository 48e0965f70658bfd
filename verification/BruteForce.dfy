/**
 `brute_force`: the exact optimum by enumerating every subset of the candidates. It is the
 yardstick the allocator's certificate is measured against.
*/
module BruteForce {
  import opened Candidates
  import opened Selection
  import opened RunningState
  import opened Certificate

  const LARGEST := 20

  datatype Answer = Optimum(margin: int) | TooLarge

  /** The candidates whose bits are set in the mask. */
  function Subset(candidates: seq<Candidate>, mask: nat): seq<Candidate> {
    if candidates == [] then []
    else (if mask % 2 == 1 then [candidates[0]] else []) + Subset(candidates[1..], mask / 2)
  }

  function Masks(n: nat): nat {
    if n == 0 then 1 else 2 * Masks(n - 1)
  }

  /** The best margin of any feasible plan, and some plan that has it. */
  ghost predicate IsOptimum(margin: int, candidates: seq<Candidate>, b: Budgets) {
    && (exists t :: Feasible(t, b) && From(t, candidates) && Total(Margin, t) == margin)
    && (forall t :: Feasible(t, b) && From(t, candidates) ==> Total(Margin, t) <= margin)
  }

  lemma {:induction false} SubsetElements(candidates: seq<Candidate>, mask: nat)
    ensures From(Subset(candidates, mask), candidates)
  {
    if candidates != [] {
      SubsetElements(candidates[1..], mask / 2);
    }
  }

  lemma SubsetBit(candidates: seq<Candidate>, tail: nat, bit: nat)
    requires candidates != [] && bit <= 1 && tail < Masks(|candidates| - 1)
    ensures Subset(candidates, 2 * tail + bit)
         == (if bit == 1 then [candidates[0]] else []) + Subset(candidates[1..], tail)
    ensures 2 * tail + bit < Masks(|candidates|)
  {
    assert (2 * tail + bit) % 2 == bit && (2 * tail + bit) / 2 == tail;
  }

  lemma HeadTaken(candidates: seq<Candidate>, t: seq<Candidate>, i: nat, tail: nat) returns (mask: nat)
    requires candidates != [] && tail < Masks(|candidates| - 1)
    requires i < |t| && t[i] == candidates[0]
    requires multiset(Subset(candidates[1..], tail)) == multiset(Drop(t, i))
    ensures mask < Masks(|candidates|) && multiset(Subset(candidates, mask)) == multiset(t)
  {
    mask := 2 * tail + 1;
    SubsetBit(candidates, tail, 1);
    DropMultiset(t, i);
  }

  lemma HeadLeft(candidates: seq<Candidate>, tail: nat) returns (mask: nat)
    requires candidates != [] && tail < Masks(|candidates| - 1)
    ensures mask < Masks(|candidates|) && Subset(candidates, mask) == Subset(candidates[1..], tail)
  {
    mask := 2 * tail;
    SubsetBit(candidates, tail, 0);
    assert [] + Subset(candidates[1..], tail) == Subset(candidates[1..], tail);
  }

  lemma TailHolds(candidates: seq<Candidate>, t: seq<Candidate>)
    requires candidates != [] && From(t, candidates) && candidates[0] !in t
    ensures From(t, candidates[1..])
  {
    assert candidates == [candidates[0]] + candidates[1..];
  }

  /** Every plan with one action per case is, up to order, one of the subsets. */
  lemma {:induction false} EveryPlanHasAMask(candidates: seq<Candidate>, t: seq<Candidate>) returns (mask: nat)
    requires OnePerCase(t) && From(t, candidates)
    ensures mask < Masks(|candidates|)
    ensures multiset(Subset(candidates, mask)) == multiset(t)
  {
    if candidates == [] {
      HasMember(t);
      mask := 0;
    } else if candidates[0] in t {
      var i :| 0 <= i < |t| && t[i] == candidates[0];
      WithoutHead(candidates, t, i);
      var tail := EveryPlanHasAMask(candidates[1..], Drop(t, i));
      mask := HeadTaken(candidates, t, i, tail);
    } else {
      TailHolds(candidates, t);
      var tail := EveryPlanHasAMask(candidates[1..], t);
      mask := HeadLeft(candidates, tail);
    }
  }

  lemma WithoutHead(candidates: seq<Candidate>, t: seq<Candidate>, i: nat)
    requires candidates != [] && i < |t| && t[i] == candidates[0]
    requires OnePerCase(t) && From(t, candidates)
    ensures OnePerCase(Drop(t, i)) && From(Drop(t, i), candidates[1..])
  {
    DropRemoves(t, i);
    forall k ensures Total(InCase(k), Drop(t, i)) <= 1 {
      TotalDrop(InCase(k), t, i);
    }
  }

  /** The enumeration's own feasibility test, with a table of contacts per customer. */
  method Respects(subset: seq<Candidate>, b: Budgets) returns (ok: bool)
    ensures ok <==> Feasible(subset, b)
  {
    var cases := CaseSet(subset);
    var perCustomer: map<CustomerId, int> := map[];
    DistinctCases(subset);
    CaseSetSize(subset);
    if |cases| != |subset| {
      return false;
    }
    if Total(Contacts, subset) > b.contacts || Total(Discount, subset) > b.discount {
      return false;
    }
    var i := 0;
    while i < |subset|
      invariant 0 <= i <= |subset|
      invariant Counts(perCustomer, subset[..i])
    {
      forall x ensures Total(ContactsTo(x), subset[..i + 1])
                    == Total(ContactsTo(x), subset[..i]) + ContactsTo(x).Of(subset[i]) {
        assert subset[..i + 1] == subset[..i] + [subset[i]];
        TotalAppend(ContactsTo(x), subset[..i], subset[i]);
      }
      CreditedCounts(perCustomer, subset[..i], subset[i], subset[..i + 1]);
      perCustomer := Credited(perCustomer, subset[i]);
      i := i + 1;
    }
    assert subset[..i] == subset;
    ok := forall x :: x in perCustomer ==> perCustomer[x] <= b.perCustomer;
    if ok {
      forall x ensures Total(ContactsTo(x), subset) <= b.perCustomer {
        LookupCounts(perCustomer, subset, x);
      }
    }
  }

  function CaseSet(s: seq<Candidate>): set<CaseId> {
    set c | c in s :: c.caseId
  }

  lemma {:induction false} CaseSetBound(s: seq<Candidate>)
    ensures |CaseSet(s)| <= |s|
    ensures (forall i, j :: 0 <= i < j < |s| ==> s[i].caseId != s[j].caseId) ==> |CaseSet(s)| == |s|
  {
    if s != [] {
      var init, last := s[..|s| - 1], s[|s| - 1];
      CaseSetBound(init);
      assert s == init + [last];
      assert CaseSet(s) == CaseSet(init) + {last.caseId};
      if last.caseId in CaseSet(init) {
        var c :| c in init && c.caseId == last.caseId;
        var i :| 0 <= i < |init| && init[i] == c;
        assert s[i].caseId == s[|s| - 1].caseId;
      }
    } else {
      assert CaseSet(s) == {};
    }
  }

  /** As many cases as elements means one element per case. */
  lemma CaseSetSize(s: seq<Candidate>)
    ensures |CaseSet(s)| == |s| <==> forall i, j :: 0 <= i < j < |s| ==> s[i].caseId != s[j].caseId
  {
    CaseSetBound(s);
    forall i, j | 0 <= i < j < |s| && s[i].caseId == s[j].caseId ensures |CaseSet(s)| < |s| {
      forall c | c in s ensures c.caseId in CaseSet(Drop(s, j)) {
        var k :| 0 <= k < |s| && s[k] == c;
        assert Drop(s, j)[i] == s[i];
        assert k < j ==> Drop(s, j)[k] == c;
        assert k > j ==> Drop(s, j)[k - 1] == c;
      }
      assert CaseSet(s) == CaseSet(Drop(s, j));
      CaseSetBound(Drop(s, j));
    }
  }

  method Enumerate(candidates: seq<Candidate>, b: Budgets) returns (answer: Answer)
    ensures answer.TooLarge? <==> |candidates| > 20
    ensures answer.Optimum? ==> IsOptimum(answer.margin, candidates, b)
  {
    if |candidates| > LARGEST {
      return TooLarge;
    }
    var best := 0;
    ghost var plan: seq<Candidate> := [];
    var mask := 0;
    while mask < Masks(|candidates|)
      invariant 0 <= mask <= Masks(|candidates|)
      invariant Feasible(plan, b) && From(plan, candidates) && Total(Margin, plan) == best
      invariant forall m: nat :: m < mask && Feasible(Subset(candidates, m), b) ==>
                                   Total(Margin, Subset(candidates, m)) <= best
    {
      var subset := Subset(candidates, mask);
      var ok := Respects(subset, b);
      if ok && Total(Margin, subset) > best {
        best := Total(Margin, subset);
        SubsetElements(candidates, mask);
        plan := subset;
      }
      mask := mask + 1;
    }
    forall t | Feasible(t, b) && From(t, candidates) ensures Total(Margin, t) <= best {
      var m := EveryPlanHasAMask(candidates, t);
      PermutationFeasible(Subset(candidates, m), t, b);
    }
    answer := Optimum(best);
  }

  /** With no crossing caps the dual dominates the enumerated optimum at every price. */
  lemma DualDominatesOptimum(candidates: seq<Candidate>, b: Budgets, p: Price, optimum: int)
    requires IsOptimum(optimum, candidates, b)
    requires p.NonNegative() && NoCrossing(candidates, b.perCustomer) && CaseOwned(candidates)
    ensures Dual(candidates, b, p) >= optimum as real
  {
    var t :| Feasible(t, b) && From(t, candidates) && Total(Margin, t) == optimum;
    DualBoundsEveryPlan(candidates, b, p, t);
  }
}
