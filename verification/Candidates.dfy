/**
 Candidates, budgets, and what it means for a funded list to respect them.

 Every constraint of the allocator bounds a sum over the funded list: at most one action
 per case, at most K contacts per customer, a contact budget and a discount budget. A
 `Measure` names the quantity being summed, so one family of lemmas serves them all, and
 no constraint depends on the order of the list.
*/
module Candidates {

  type CaseId = nat
  type CustomerId = nat

  datatype ActionKind =
    | Suppress
    | SilentRetry
    | ScheduleDebit
    | PaymentLink
    | Message
    | VoiceCall
    | DiscountOffer
    | Escalate
  {
    predicate ContactsCustomer() {
      Message? || VoiceCall? || DiscountOffer?
    }
  }

  datatype Channel = NoChannel | WhatsApp | Sms | Email | Voice

  /** A candidate spends one contact or none. */
  type Draw = n: nat | n <= 1

  /** One (case, action) pair. `id` stands for object identity, which the passes test. */
  datatype Candidate = Candidate(
    id: nat,
    caseId: CaseId,
    customer: CustomerId,
    kind: ActionKind,
    channel: Channel,
    margin: int,
    contacts: Draw,
    discount: nat,
    channelCost: int)

  datatype Budgets = Budgets(contacts: nat, discount: nat, perCustomer: nat)

  /** The quantities that constraints and objectives add up over a list. */
  datatype Measure = Margin | Contacts | Discount | ContactsTo(customer: CustomerId) | InCase(caseId: CaseId)
  {
    function Of(c: Candidate): int {
      match this
      case Margin => c.margin
      case Contacts => c.contacts
      case Discount => c.discount
      case ContactsTo(x) => if c.customer == x then c.contacts else 0
      case InCase(k) => if c.caseId == k then 1 else 0
    }
  }

  function Total(m: Measure, s: seq<Candidate>): int {
    if s == [] then 0 else Total(m, s[..|s| - 1]) + m.Of(s[|s| - 1])
  }

  ghost predicate OnePerCase(s: seq<Candidate>) {
    forall k :: Total(InCase(k), s) <= 1
  }

  ghost predicate Capped(s: seq<Candidate>, cap: nat) {
    forall x :: Total(ContactsTo(x), s) <= cap
  }

  /** The combinatorial constraints, which the relaxation never prices. */
  ghost predicate Admissible(s: seq<Candidate>, cap: nat) {
    OnePerCase(s) && Capped(s, cap)
  }

  ghost predicate WithinBudgets(s: seq<Candidate>, b: Budgets) {
    Total(Contacts, s) <= b.contacts && Total(Discount, s) <= b.discount
  }

  /** Everything the merchant authorised. */
  ghost predicate Feasible(s: seq<Candidate>, b: Budgets) {
    Admissible(s, b.perCustomer) && WithinBudgets(s, b)
  }

  ghost predicate From(s: seq<Candidate>, candidates: seq<Candidate>) {
    forall c :: c in s ==> c in candidates
  }

  /** Two references to one object agree on every field. */
  ghost predicate Identified(s: seq<Candidate>) {
    forall c, d :: c in s && d in s && c.id == d.id ==> c == d
  }

  /** A case belongs to one customer. */
  ghost predicate CaseOwned(s: seq<Candidate>) {
    forall c, d :: c in s && d in s && c.caseId == d.caseId ==> c.customer == d.customer
  }

  function Drop<T>(s: seq<T>, i: nat): seq<T>
    requires i < |s|
  {
    s[..i] + s[i + 1..]
  }

  lemma DropMultiset<T>(s: seq<T>, i: nat)
    requires i < |s|
    ensures multiset(Drop(s, i)) == multiset(s) - multiset{s[i]} && s[i] in multiset(s)
  {
    assert s == s[..i] + [s[i]] + s[i + 1..];
  }

  // Sums

  lemma {:induction false} TotalAppend(m: Measure, s: seq<Candidate>, c: Candidate)
    ensures Total(m, s + [c]) == Total(m, s) + m.Of(c)
  {
    assert (s + [c])[..|s|] == s;
  }

  lemma {:induction false} TotalConcat(m: Measure, s: seq<Candidate>, t: seq<Candidate>)
    ensures Total(m, s + t) == Total(m, s) + Total(m, t)
  {
    if t == [] {
      assert s + t == s;
    } else {
      var last := |t| - 1;
      TotalConcat(m, s, t[..last]);
      assert (s + t)[..|s + t| - 1] == s + t[..last];
    }
  }

  lemma TotalDrop(m: Measure, s: seq<Candidate>, i: nat)
    requires i < |s|
    ensures Total(m, Drop(s, i)) == Total(m, s) - m.Of(s[i])
  {
    assert s == s[..i] + [s[i]] + s[i + 1..];
    TotalConcat(m, s[..i] + [s[i]], s[i + 1..]);
    TotalAppend(m, s[..i], s[i]);
    TotalConcat(m, s[..i], s[i + 1..]);
  }

  lemma TotalUpdate(m: Measure, s: seq<Candidate>, i: nat, c: Candidate)
    requires i < |s|
    ensures Total(m, s[i := c]) == Total(m, s) - m.Of(s[i]) + m.Of(c)
  {
    TotalDrop(m, s, i);
    TotalDrop(m, s[i := c], i);
    assert Drop(s[i := c], i) == Drop(s, i);
  }

  lemma {:induction false} TotalNonNegative(m: Measure, s: seq<Candidate>)
    requires !m.Margin?
    ensures Total(m, s) >= 0
  {
    if s != [] {
      TotalNonNegative(m, s[..|s| - 1]);
    }
  }

  lemma {:induction false} TotalAtLeast(m: Measure, s: seq<Candidate>, c: Candidate)
    requires !m.Margin?
    requires c in s
    ensures Total(m, s) >= m.Of(c)
  {
    var i :| 0 <= i < |s| && s[i] == c;
    TotalDrop(m, s, i);
    TotalNonNegative(m, Drop(s, i));
  }

  lemma {:induction false} TotalWitness(m: Measure, s: seq<Candidate>) returns (i: nat)
    requires !m.Margin?
    requires Total(m, s) > 0
    ensures i < |s| && m.Of(s[i]) > 0
  {
    if m.Of(s[|s| - 1]) > 0 {
      i := |s| - 1;
    } else {
      i := TotalWitness(m, s[..|s| - 1]);
    }
  }

  /** Sums ignore order. */
  lemma {:induction false} TotalPermutation(m: Measure, s: seq<Candidate>, t: seq<Candidate>)
    requires multiset(s) == multiset(t)
    ensures Total(m, s) == Total(m, t)
    decreases |s|
  {
    if s == [] {
      assert |t| == |multiset(t)| == |multiset(s)| == 0;
    } else {
      assert s[0] in multiset(s);
      var i :| 0 <= i < |t| && t[i] == s[0];
      assert s == [s[0]] + s[1..];
      assert Drop(s, 0) == s[1..];
      assert t == t[..i] + [t[i]] + t[i + 1..];
      assert multiset(Drop(t, i)) == multiset(t) - multiset{t[i]};
      TotalPermutation(m, s[1..], Drop(t, i));
      TotalDrop(m, s, 0);
      TotalDrop(m, t, i);
    }
  }

  // Constraints are monotone and ignore order

  /** Dropping an element keeps every constraint. */
  lemma DropAdmissible(s: seq<Candidate>, i: nat, cap: nat)
    requires i < |s| && Admissible(s, cap)
    ensures Admissible(Drop(s, i), cap)
    ensures Total(Contacts, Drop(s, i)) <= Total(Contacts, s)
    ensures Total(Discount, Drop(s, i)) <= Total(Discount, s)
  {
    forall k ensures Total(InCase(k), Drop(s, i)) <= 1 {
      TotalDrop(InCase(k), s, i);
    }
    forall x ensures Total(ContactsTo(x), Drop(s, i)) <= cap {
      TotalDrop(ContactsTo(x), s, i);
    }
    TotalDrop(Contacts, s, i);
    TotalDrop(Discount, s, i);
  }

  lemma PermutationFeasible(s: seq<Candidate>, t: seq<Candidate>, b: Budgets)
    requires multiset(s) == multiset(t)
    ensures Feasible(s, b) <==> Feasible(t, b)
    ensures Total(Margin, s) == Total(Margin, t)
  {
    forall m: Measure ensures Total(m, s) == Total(m, t) {
      TotalPermutation(m, s, t);
    }
  }

  lemma TwoInCase(s: seq<Candidate>, k: CaseId) returns (i: nat, j: nat)
    requires Total(InCase(k), s) > 1
    ensures i < j < |s| && s[i].caseId == s[j].caseId == k
  {
    i := TotalWitness(InCase(k), s);
    TotalDrop(InCase(k), s, i);
    j := TotalWitness(InCase(k), Drop(s, i));
    assert Drop(s, i)[j] == if j < i then s[j] else s[j + 1];
    if j < i {
      i, j := j, i;
    } else {
      j := j + 1;
    }
  }

  lemma SharedCaseCounts(s: seq<Candidate>, i: nat, j: nat)
    requires i < j < |s| && s[i].caseId == s[j].caseId
    ensures Total(InCase(s[i].caseId), s) > 1
  {
    var k := s[i].caseId;
    TotalDrop(InCase(k), s, j);
    assert Drop(s, j)[i] == s[i];
    TotalAtLeast(InCase(k), Drop(s, j), s[i]);
  }

  /** One-per-case in terms of positions. */
  lemma DistinctCases(s: seq<Candidate>)
    ensures OnePerCase(s) <==> forall i, j :: 0 <= i < j < |s| ==> s[i].caseId != s[j].caseId
  {
    forall i, j | 0 <= i < j < |s| && s[i].caseId == s[j].caseId
      ensures Total(InCase(s[i].caseId), s) > 1
    {
      SharedCaseCounts(s, i, j);
    }
    forall k | Total(InCase(k), s) > 1
      ensures exists i, j :: 0 <= i < j < |s| && s[i].caseId == s[j].caseId
    {
      var i, j := TwoInCase(s, k);
    }
  }

  /** A list with one action per case holds no candidate twice. */
  lemma DropRemoves(s: seq<Candidate>, i: nat)
    requires i < |s| && OnePerCase(s)
    ensures s[i] !in Drop(s, i)
    ensures forall c :: c in Drop(s, i) ==> c in s && c.caseId != s[i].caseId
    ensures forall c :: c in s && c != s[i] ==> c in Drop(s, i)
  {
    DistinctCases(s);
    forall c | c in Drop(s, i) ensures c in s && c.caseId != s[i].caseId {
      var j :| 0 <= j < |Drop(s, i)| && Drop(s, i)[j] == c;
      assert c == if j < i then s[j] else s[j + 1];
    }
    forall c | c in s && c != s[i] ensures c in Drop(s, i) {
      var j :| 0 <= j < |s| && s[j] == c;
      assert c == Drop(s, i)[if j < i then j else j - 1];
    }
  }
}
