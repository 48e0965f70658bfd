/**
 `_take_costless_actions`: fund a free, unseen action on every case the knapsack left empty,
 whatever its estimated margin.
*/
module Costless {
  import opened Candidates
  import opened RunningState

  /** Spends no money and never reaches the customer. */
  predicate CostlessUnseen(c: Candidate) {
    && !c.kind.ContactsCustomer() && !c.kind.Suppress? && !c.kind.Escalate?
    && c.contacts == 0 && c.discount == 0 && c.channelCost == 0
  }

  /** A retry, a scheduled debit or a bare payment link that draws on nothing. */
  predicate Free(c: Candidate) {
    && (c.kind.SilentRetry? || c.kind.ScheduleDebit? || c.kind.PaymentLink?)
    && c.contacts == 0 && c.discount == 0 && c.channelCost == 0
  }

  ghost predicate Empty(chosen: seq<Candidate>, k: CaseId) {
    Total(InCase(k), chosen) == 0
  }

  /** The best free action of its case, on a case that was left empty. */
  ghost predicate BestFree(c: Candidate, chosen: seq<Candidate>, candidates: seq<Candidate>) {
    && c in candidates && Free(c) && Empty(chosen, c.caseId)
    && forall d :: d in candidates && Free(d) && d.caseId == c.caseId ==> d.margin <= c.margin
  }

  /** Actions that draw on nothing keep every budget and cap; only their cases must be free. */
  lemma {:induction false} CostlessKeepsFeasible(chosen: seq<Candidate>, added: seq<Candidate>, b: Budgets)
    requires Feasible(chosen, b) && OnePerCase(chosen + added)
    requires forall c :: c in added ==> c.contacts == 0 && c.discount == 0
    ensures Feasible(chosen + added, b)
    ensures Total(Contacts, chosen + added) == Total(Contacts, chosen)
    ensures Total(Discount, chosen + added) == Total(Discount, chosen)
  {
    forall m: Measure | m.Contacts? || m.Discount? || m.ContactsTo?
      ensures Total(m, chosen + added) == Total(m, chosen)
    {
      TotalConcat(m, chosen, added);
      DrawsNothing(m, added);
    }
  }

  lemma {:induction false} DrawsNothing(m: Measure, s: seq<Candidate>)
    requires m.Contacts? || m.Discount? || m.ContactsTo?
    requires forall c :: c in s ==> c.contacts == 0 && c.discount == 0
    ensures Total(m, s) == 0
  {
    if s != [] {
      assert s[|s| - 1] in s;
      DrawsNothing(m, s[..|s| - 1]);
    }
  }

  /** The best free action of every case that is still empty, and those cases in order. */
  ghost predicate BestPerCase(best: map<CaseId, Candidate>, order: seq<CaseId>, funded: set<CaseId>,
                              chosen: seq<Candidate>, candidates: seq<Candidate>)
  {
    && (forall k :: k in order <==> k in best)
    && (forall x, y :: 0 <= x < y < |order| ==> order[x] != order[y])
    && (forall k :: k in best ==> best[k].caseId == k && BestFree(best[k], chosen, candidates))
    && (forall c :: c in candidates && Free(c) ==> c.caseId in funded || c.caseId in best)
  }

  method FindBest(chosen: seq<Candidate>, candidates: seq<Candidate>, funded: set<CaseId>)
      returns (best: map<CaseId, Candidate>, order: seq<CaseId>)
    requires forall k :: k in funded <==> !Empty(chosen, k)
    ensures BestPerCase(best, order, funded, chosen, candidates)
  {
    best, order := map[], [];
    var i := 0;
    while i < |candidates|
      invariant 0 <= i <= |candidates|
      invariant BestPerCase(best, order, funded, chosen, candidates[..i])
    {
      var c := candidates[i];
      assert candidates[..i + 1] == candidates[..i] + [c];
      i := i + 1;
      if c.caseId in funded || !CostlessUnseen(c) {
        continue;
      }
      if c.caseId !in best {
        order := order + [c.caseId];
        best := best[c.caseId := c];
      } else if c.margin > best[c.caseId].margin {
        best := best[c.caseId := c];
      }
    }
    assert candidates[..i] == candidates;
  }

  method TakeCostless(chosen: seq<Candidate>, candidates: seq<Candidate>) returns (extended: seq<Candidate>)
    ensures chosen <= extended
    ensures forall c :: c in extended[|chosen|..] ==> BestFree(c, chosen, candidates)
    ensures OnePerCase(chosen) ==> OnePerCase(extended)
    ensures forall c :: c in candidates && Free(c) ==> !Empty(extended, c.caseId)
  {
    var funded: set<CaseId> := set c | c in chosen :: c.caseId;
    forall k ensures k in funded <==> !Empty(chosen, k) {
      CaseIsCounted(chosen, k);
      TotalNonNegative(InCase(k), chosen);
    }
    var best, order := FindBest(chosen, candidates, funded);
    extended := chosen;
    var j := 0;
    while j < |order|
      invariant 0 <= j <= |order|
      invariant chosen <= extended && |extended| == |chosen| + j
      invariant forall x :: 0 <= x < j ==> extended[|chosen| + x] == best[order[x]]
    {
      assert order[j] in order;
      extended := extended + [best[order[j]]];
      j := j + 1;
    }
    ExtensionIsDistinct(chosen, extended, order);
    forall c | c in extended[|chosen|..] ensures BestFree(c, chosen, candidates) {
      var x :| 0 <= x < |extended[|chosen|..]| && extended[|chosen|..][x] == c;
      assert c == best[order[x]] && order[x] in order;
    }
    forall c | c in candidates && Free(c) ensures !Empty(extended, c.caseId) {
      if c.caseId in funded {
        TotalConcat(InCase(c.caseId), chosen, extended[|chosen|..]);
        TotalNonNegative(InCase(c.caseId), chosen);
        TotalNonNegative(InCase(c.caseId), extended[|chosen|..]);
        assert extended == chosen + extended[|chosen|..];
      } else {
        var x :| 0 <= x < |order| && order[x] == c.caseId;
        TotalAtLeast(InCase(c.caseId), extended, extended[|chosen| + x]);
      }
    }
  }

  lemma ExtensionIsDistinct(chosen: seq<Candidate>, extended: seq<Candidate>, order: seq<CaseId>)
    requires chosen <= extended && |extended| == |chosen| + |order|
    requires forall x, y :: 0 <= x < y < |order| ==> order[x] != order[y]
    requires forall x :: 0 <= x < |order| ==> extended[|chosen| + x].caseId == order[x] && Empty(chosen, order[x])
    ensures OnePerCase(chosen) ==> OnePerCase(extended)
  {
    DistinctCases(chosen);
    DistinctCases(extended);
    if OnePerCase(chosen) {
      forall x, y | 0 <= x < y < |extended| ensures extended[x].caseId != extended[y].caseId {
        if x < |chosen| <= y {
          TotalAtLeast(InCase(extended[x].caseId), chosen, chosen[x]);
          assert Empty(chosen, order[y - |chosen|]);
        } else if |chosen| <= x {
          assert order[x - |chosen|] != order[y - |chosen|];
        } else {
          assert chosen[x].caseId != chosen[y].caseId;
        }
      }
    }
  }
}
