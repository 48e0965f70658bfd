/**
 `_select`: everything with positive reduced value, best first, at most one action per
 case and K contacts per customer.

 The caps are enforced greedily rather than priced. An exchange argument shows when that
 is exact: the two caps must not cross, meaning that no case offers both a contact and a
 silent action while as many other cases of the same customer as it may be contacted for
 also offer a contact. When they do cross, the greedy set is worth at least half of the
 best one.
*/
module Selection {
  import opened Candidates
  import opened Sorting

  /** What one unit of each budget is worth elsewhere. */
  datatype Price = Price(contact: real, discount: real) {
    predicate NonNegative() {
      contact >= 0.0 && discount >= 0.0
    }

    function Reduced(c: Candidate): real {
      c.margin as real - contact * c.contacts as real - discount * c.discount as real
    }

    predicate Clears(c: Candidate) {
      Reduced(c) > 0.0
    }
  }

  function ByReduced(p: Price): Candidate -> Key {
    c => Finite(p.Reduced(c))
  }

  function ClearsAt(p: Price): Candidate -> bool {
    c => p.Clears(c)
  }

  /** The candidates that clear their price, in the order they are considered. */
  function Scored(candidates: seq<Candidate>, p: Price): seq<Candidate> {
    SortDesc(ByReduced(p), Filter(ClearsAt(p), candidates))
  }

  predicate Admits(chosen: seq<Candidate>, c: Candidate, cap: nat) {
    && Total(InCase(c.caseId), chosen) == 0
    && (c.contacts > 0 ==> Total(ContactsTo(c.customer), chosen) + c.contacts <= cap)
  }

  /** Scans xs in order and keeps whatever the caps still admit. */
  function Take(xs: seq<Candidate>, chosen: seq<Candidate>, cap: nat): seq<Candidate> {
    if xs == [] then chosen
    else Take(xs[1..], if Admits(chosen, xs[0], cap) then chosen + [xs[0]] else chosen, cap)
  }

  function Selected(candidates: seq<Candidate>, cap: nat, p: Price): seq<Candidate> {
    Take(Scored(candidates, p), [], cap)
  }

  /** The total reduced value of a list. */
  function Worth(p: Price, s: seq<Candidate>): real {
    if s == [] then 0.0 else Worth(p, s[..|s| - 1]) + p.Reduced(s[|s| - 1])
  }

  lemma WorthAppend(p: Price, s: seq<Candidate>, c: Candidate)
    ensures Worth(p, s + [c]) == Worth(p, s) + p.Reduced(c)
  {
    assert (s + [c])[..|s|] == s;
  }

  lemma {:induction false} WorthConcat(p: Price, s: seq<Candidate>, t: seq<Candidate>)
    ensures Worth(p, s + t) == Worth(p, s) + Worth(p, t)
  {
    if t == [] {
      assert s + t == s;
    } else {
      var last := |t| - 1;
      WorthConcat(p, s, t[..last]);
      assert (s + t)[..|s + t| - 1] == s + t[..last];
    }
  }

  lemma WorthDrop(p: Price, s: seq<Candidate>, i: nat)
    requires i < |s|
    ensures Worth(p, Drop(s, i)) == Worth(p, s) - p.Reduced(s[i])
  {
    assert s == s[..i] + [s[i]] + s[i + 1..];
    WorthConcat(p, s[..i] + [s[i]], s[i + 1..]);
    WorthAppend(p, s[..i], s[i]);
    WorthConcat(p, s[..i], s[i + 1..]);
  }

  /** Reduced values add up to the margin less the price of the resources drawn. */
  lemma {:induction false} WorthIsPricedMargin(p: Price, s: seq<Candidate>)
    ensures Worth(p, s) == Total(Margin, s) as real
                         - p.contact * Total(Contacts, s) as real
                         - p.discount * Total(Discount, s) as real
  {
    if s != [] {
      var t, c := s[..|s| - 1], s[|s| - 1];
      WorthIsPricedMargin(p, t);
      assert p.contact * (Total(Contacts, t) + c.contacts) as real
          == p.contact * Total(Contacts, t) as real + p.contact * c.contacts as real;
      assert p.discount * (Total(Discount, t) + c.discount) as real
          == p.discount * Total(Discount, t) as real + p.discount * c.discount as real;
    }
  }

  // What Take returns

  lemma AdmitsExactly(chosen: seq<Candidate>, c: Candidate, cap: nat)
    requires Admissible(chosen, cap)
    ensures Admits(chosen, c, cap) <==> Admissible(chosen + [c], cap)
  {
    if Admits(chosen, c, cap) {
      forall k ensures Total(InCase(k), chosen + [c]) <= 1 {
        TotalAppend(InCase(k), chosen, c);
      }
      forall x ensures Total(ContactsTo(x), chosen + [c]) <= cap {
        TotalAppend(ContactsTo(x), chosen, c);
      }
    }
    if Admissible(chosen + [c], cap) {
      TotalAppend(InCase(c.caseId), chosen, c);
      TotalNonNegative(InCase(c.caseId), chosen);
      TotalAppend(ContactsTo(c.customer), chosen, c);
    }
  }

  lemma {:induction false} TakeAdmissible(xs: seq<Candidate>, chosen: seq<Candidate>, cap: nat)
    requires Admissible(chosen, cap)
    ensures Admissible(Take(xs, chosen, cap), cap)
    ensures forall c :: c in Take(xs, chosen, cap) ==> c in chosen || c in xs
    decreases |xs|
  {
    if xs != [] {
      AdmitsExactly(chosen, xs[0], cap);
      TakeAdmissible(xs[1..], if Admits(chosen, xs[0], cap) then chosen + [xs[0]] else chosen, cap);
    }
  }

  lemma ScoredElements(candidates: seq<Candidate>, p: Price)
    ensures forall c :: c in Scored(candidates, p) <==> c in candidates && p.Clears(c)
    ensures Descending(ByReduced(p), Scored(candidates, p))
  {
    SameElements(ByReduced(p), Filter(ClearsAt(p), candidates));
    SortOrders(ByReduced(p), Filter(ClearsAt(p), candidates));
  }

  /** The selection is drawn from the candidates that clear their price, within both caps. */
  lemma SelectedAdmissible(candidates: seq<Candidate>, cap: nat, p: Price)
    ensures Admissible(Selected(candidates, cap, p), cap)
    ensures forall c :: c in Selected(candidates, cap, p) ==> c in candidates && p.Clears(c)
  {
    ScoredElements(candidates, p);
    TakeAdmissible(Scored(candidates, p), [], cap);
  }

  // The exchange argument

  /** a and b compete for one case and b is silent, while contacts to the others alone would fill the cap. */
  ghost predicate Crossing(a: Candidate, b: Candidate, others: seq<Candidate>, cap: nat) {
    && a.caseId == b.caseId && a.contacts == 1 && b.contacts == 0
    && |others| == cap && cap >= 1 && OnePerCase(others)
    && forall c :: c in others ==> c.customer == a.customer && c.contacts == 1 && c.caseId != a.caseId
  }

  /** The two caps never compete for the same action. */
  ghost predicate NoCrossing(s: seq<Candidate>, cap: nat) {
    forall a, b, others {:trigger Crossing(a, b, others, cap)} ::
      a in s && b in s && From(others, s) ==> !Crossing(a, b, others, cap)
  }

  lemma NoMixedCaseNeverCrosses(s: seq<Candidate>, cap: nat)
    requires forall a, b :: a in s && b in s && a.caseId == b.caseId ==> a.contacts == b.contacts
    ensures NoCrossing(s, cap)
  {
  }

  lemma CrossingShrinks(a: Candidate, b: Candidate, others: seq<Candidate>, few: nat, many: nat)
    requires 1 <= few <= many && Crossing(a, b, others, many)
    ensures Crossing(a, b, others[..few], few)
  {
    forall k ensures Total(InCase(k), others[..few]) <= 1 {
      assert others == others[..few] + others[few..];
      TotalConcat(InCase(k), others[..few], others[few..]);
      TotalNonNegative(InCase(k), others[few..]);
      assert Total(InCase(k), others) <= 1;
    }
  }

  /** A customer who may be contacted more often has fewer crossings. */
  lemma CrossingsThinOut(s: seq<Candidate>, few: nat, many: nat)
    requires 1 <= few <= many && NoCrossing(s, few)
    ensures NoCrossing(s, many)
  {
    forall a, b, others | a in s && b in s && From(others, s) ensures !Crossing(a, b, others, many) {
      if Crossing(a, b, others, many) {
        CrossingShrinks(a, b, others, few, many);
        assert From(others[..few], s);
      }
    }
  }

  /** Dropping some elements of t leaves room. */
  ghost predicate Splits(t: seq<Candidate>, room: seq<Candidate>, dropped: seq<Candidate>) {
    && (forall m: Measure :: Total(m, t) == Total(m, room) + Total(m, dropped))
    && (forall p: Price :: Worth(p, t) == Worth(p, room) + Worth(p, dropped))
    && From(room, t) && From(dropped, t)
  }

  lemma SplitsAt(t: seq<Candidate>, i: nat)
    requires i < |t|
    ensures Splits(t, Drop(t, i), [t[i]])
  {
    forall m: Measure ensures Total(m, t) == Total(m, Drop(t, i)) + Total(m, [t[i]]) {
      TotalDrop(m, t, i);
      TotalAppend(m, [], t[i]);
      assert [] + [t[i]] == [t[i]];
    }
    forall p: Price ensures Worth(p, t) == Worth(p, Drop(t, i)) + Worth(p, [t[i]]) {
      WorthDrop(p, t, i);
      WorthAppend(p, [], t[i]);
      assert [] + [t[i]] == [t[i]];
    }
  }

  /** Drops the element that shares x's case, if there is one. */
  lemma FreeCase(x: Candidate, t: seq<Candidate>) returns (room: seq<Candidate>, dropped: seq<Candidate>)
    requires OnePerCase(t)
    ensures Splits(t, room, dropped)
    ensures Total(InCase(x.caseId), room) == 0
    ensures |dropped| <= 1 && forall c :: c in dropped ==> c.caseId == x.caseId
  {
    if Total(InCase(x.caseId), t) > 0 {
      var i := TotalWitness(InCase(x.caseId), t);
      SplitsAt(t, i);
      TotalDrop(InCase(x.caseId), t, i);
      room, dropped := Drop(t, i), [t[i]];
    } else {
      room, dropped := t, [];
      TotalNonNegative(InCase(x.caseId), t);
    }
  }

  /** Drops one contact to x's customer when the cap has no room for another. */
  lemma FreeContact(x: Candidate, used: nat, t: seq<Candidate>, cap: nat)
      returns (room: seq<Candidate>, dropped: seq<Candidate>)
    requires used + x.contacts <= cap && used + Total(ContactsTo(x.customer), t) <= cap
    ensures Splits(t, room, dropped)
    ensures x.contacts > 0 ==> used + Total(ContactsTo(x.customer), room) + x.contacts <= cap
    ensures |dropped| <= 1
    ensures |dropped| == 1 ==> x.contacts == 1 && used + Total(ContactsTo(x.customer), t) == cap
    ensures forall c :: c in dropped ==> c.customer == x.customer && c.contacts == 1
  {
    if x.contacts > 0 && used + Total(ContactsTo(x.customer), t) + 1 > cap {
      var j := TotalWitness(ContactsTo(x.customer), t);
      SplitsAt(t, j);
      TotalDrop(ContactsTo(x.customer), t, j);
      room, dropped := Drop(t, j), [t[j]];
    } else {
      room, dropped := t, [];
    }
  }

  lemma AdmissibleAround(chosen: seq<Candidate>, x: Candidate, t: seq<Candidate>, room: seq<Candidate>, cap: nat)
    requires Admissible(chosen + t, cap) && Admits(chosen, x, cap)
    requires forall m: Measure :: !m.Margin? ==> Total(m, room) <= Total(m, t)
    requires Total(InCase(x.caseId), room) == 0
    requires x.contacts > 0 ==>
               Total(ContactsTo(x.customer), chosen) + Total(ContactsTo(x.customer), room) + x.contacts <= cap
    ensures Admissible(chosen + [x] + room, cap)
  {
    forall m: Measure
      ensures Total(m, chosen + t) == Total(m, chosen) + Total(m, t)
      ensures Total(m, chosen + [x] + room) == Total(m, chosen) + m.Of(x) + Total(m, room)
    {
      TotalConcat(m, chosen, t);
      TotalConcat(m, chosen + [x], room);
      TotalAppend(m, chosen, x);
    }
    assert forall k :: Total(InCase(k), chosen + t) <= 1;
    assert forall y :: Total(ContactsTo(y), chosen + t) <= cap;
  }

  lemma SplitsCompose(t: seq<Candidate>, first: seq<Candidate>, shared: seq<Candidate>,
                      second: seq<Candidate>, contact: seq<Candidate>)
    requires Splits(t, first, shared) && Splits(first, second, contact)
    ensures Splits(t, second, shared + contact)
  {
    forall m: Measure ensures Total(m, t) == Total(m, second) + Total(m, shared + contact) {
      TotalConcat(m, shared, contact);
    }
    forall p: Price ensures Worth(p, t) == Worth(p, second) + Worth(p, shared + contact) {
      WorthConcat(p, shared, contact);
    }
  }

  /** Part of an admissible list keeps its share of the caps. */
  lemma TailAdmissible(chosen: seq<Candidate>, t: seq<Candidate>, customer: CustomerId, cap: nat)
    requires Admissible(chosen + t, cap)
    ensures OnePerCase(t)
    ensures Total(ContactsTo(customer), chosen) + Total(ContactsTo(customer), t) <= cap
  {
    TotalConcat(ContactsTo(customer), chosen, t);
    assert Total(ContactsTo(customer), chosen + t) <= cap;
    forall k ensures Total(InCase(k), t) <= 1 {
      TotalConcat(InCase(k), chosen, t);
      TotalNonNegative(InCase(k), chosen);
      assert Total(InCase(k), chosen + t) <= 1;
    }
  }

  lemma {:induction false} FilterTotal(f: Candidate -> bool, m: Measure, t: seq<Candidate>)
    requires !m.Margin?
    ensures Total(m, Filter(f, t)) <= Total(m, t)
  {
    if t != [] {
      FilterTotal(f, m, t[1..]);
      TotalDrop(m, t, 0);
      var kept := Filter(f, t[1..]);
      TotalDrop(m, [t[0]] + kept, 0);
      assert Drop(t, 0) == t[1..] && Drop([t[0]] + kept, 0) == kept;
    }
  }

  lemma {:induction false} FilterWorth(p: Price, t: seq<Candidate>)
    ensures Worth(p, Filter(ClearsAt(p), t)) >= Worth(p, t)
  {
    if t != [] {
      FilterWorth(p, t[1..]);
      WorthDrop(p, t, 0);
      var kept := Filter(ClearsAt(p), t[1..]);
      WorthDrop(p, [t[0]] + kept, 0);
      assert Drop(t, 0) == t[1..] && Drop([t[0]] + kept, 0) == kept;
    }
  }

  lemma FilterAdmissible(f: Candidate -> bool, t: seq<Candidate>, cap: nat)
    requires Admissible(t, cap)
    ensures Admissible(Filter(f, t), cap)
  {
    forall m: Measure | !m.Margin? ensures Total(m, Filter(f, t)) <= Total(m, t) {
      FilterTotal(f, m, t);
    }
  }

  function IsContactTo(x: CustomerId): Candidate -> bool {
    (c: Candidate) => c.customer == x && c.contacts == 1
  }

  lemma TotalFromFront(m: Measure, s: seq<Candidate>)
    requires s != []
    ensures Total(m, s) == m.Of(s[0]) + Total(m, s[1..])
  {
    TotalDrop(m, s, 0);
    assert Drop(s, 0) == s[1..];
  }

  /** The contacts to a customer, as a list as long as their number. */
  lemma {:induction false} ContactsAreMany(s: seq<Candidate>, x: CustomerId)
    ensures |Filter(IsContactTo(x), s)| == Total(ContactsTo(x), s)
  {
    if s != [] {
      ContactsAreMany(s[1..], x);
      TotalFromFront(ContactsTo(x), s);
    }
  }

  /** A list with one action per case and none in x's case that fills the cap of x's customer crosses. */
  lemma FullCapCrosses(s: seq<Candidate>, x: Candidate, b: Candidate, cap: nat)
    requires Admissible(s, cap) && Total(InCase(x.caseId), s) == 0 && Total(ContactsTo(x.customer), s) == cap >= 1
    requires x.contacts == 1 && b.contacts == 0 && b.caseId == x.caseId
    ensures From(Filter(IsContactTo(x.customer), s), s) && Crossing(x, b, Filter(IsContactTo(x.customer), s), cap)
  {
    var others := Filter(IsContactTo(x.customer), s);
    ContactsAreMany(s, x.customer);
    FilterAdmissible(IsContactTo(x.customer), s, cap);
    forall c | c in others ensures c.caseId != x.caseId {
      if c.caseId == x.caseId {
        TotalAtLeast(InCase(x.caseId), s, c);
      }
    }
  }

  /** If both a case mate and a contact had to go, the case mate was silent and the caps cross. */
  lemma TwoDroppedCross(chosen: seq<Candidate>, x: Candidate, b: Candidate, t: seq<Candidate>, first: seq<Candidate>,
                        cap: nat) returns (others: seq<Candidate>)
    requires Admissible(chosen + t, cap) && Admits(chosen, x, cap) && CaseOwned([x] + t)
    requires Splits(t, first, [b]) && Total(InCase(x.caseId), first) == 0 && b.caseId == x.caseId && x.contacts == 1
    requires Total(ContactsTo(x.customer), chosen) + Total(ContactsTo(x.customer), first) == cap
    ensures From(others, chosen + t) && Crossing(x, b, others, cap)
  {
    var s := chosen + first;
    TotalNonNegative(ContactsTo(x.customer), chosen);
    assert b in [b] && x in [x] + t && b in [x] + t;
    forall m: Measure | !m.Margin?
      ensures Total(m, s) == Total(m, chosen) + Total(m, first) && Total(m, s) + m.Of(b) == Total(m, chosen + t)
    {
      TotalConcat(m, chosen, first);
      TotalConcat(m, chosen, t);
      TotalAppend(m, [], b);
      assert [] + [b] == [b];
    }
    assert Total(ContactsTo(x.customer), chosen + t) <= cap;
    assert forall k :: Total(InCase(k), chosen + t) <= 1;
    assert forall y :: Total(ContactsTo(y), chosen + t) <= cap;
    FullCapCrosses(s, x, b, cap);
    others := Filter(IsContactTo(x.customer), s);
  }

  /**
   Makes room for x in an admissible list by dropping at most two elements: the one that
   shares its case, and one contact of its customer. Two are needed only when they cross.
   */
  lemma MakeRoom(chosen: seq<Candidate>, x: Candidate, t: seq<Candidate>, cap: nat)
      returns (room: seq<Candidate>, dropped: seq<Candidate>)
    requires Admissible(chosen + t, cap) && Admits(chosen, x, cap)
    ensures Admissible(chosen + [x] + room, cap)
    ensures Splits(t, room, dropped) && Total(InCase(x.caseId), room) == 0
    ensures |dropped| <= 2
    ensures |dropped| == 2 && CaseOwned([x] + t) ==>
              exists others :: From(others, chosen + t) && Crossing(x, dropped[0], others, cap)
  {
    TotalNonNegative(ContactsTo(x.customer), chosen);
    var used: nat := Total(ContactsTo(x.customer), chosen);
    TailAdmissible(chosen, t, x.customer, cap);
    var first, shared := FreeCase(x, t);
    TotalNonNegative(ContactsTo(x.customer), shared);
    var contact: seq<Candidate> := [];
    room := first;
    if x.contacts > 0 {
      room, contact := FreeContact(x, used, first, cap);
    }
    dropped := shared + contact;
    SplitsCompose(t, first, shared, room, contact);
    RoomFits(chosen, x, t, first, room, contact, dropped, cap);
    if |dropped| == 2 && CaseOwned([x] + t) {
      assert shared == [dropped[0]] && contact == [dropped[1]];
      var others := TwoDroppedCross(chosen, x, dropped[0], t, first, cap);
    }
  }

  lemma RoomFits(chosen: seq<Candidate>, x: Candidate, t: seq<Candidate>, first: seq<Candidate>, room: seq<Candidate>,
                 contact: seq<Candidate>, dropped: seq<Candidate>, cap: nat)
    requires Admissible(chosen + t, cap) && Admits(chosen, x, cap)
    requires Splits(t, room, dropped) && Splits(first, room, contact) && Total(InCase(x.caseId), first) == 0
    requires x.contacts > 0 ==>
               Total(ContactsTo(x.customer), chosen) + Total(ContactsTo(x.customer), room) + x.contacts <= cap
    ensures Total(InCase(x.caseId), room) == 0 && Admissible(chosen + [x] + room, cap)
  {
    TotalNonNegative(InCase(x.caseId), room);
    TotalNonNegative(InCase(x.caseId), contact);
    forall m: Measure | !m.Margin? ensures Total(m, room) <= Total(m, t) {
      TotalNonNegative(m, dropped);
    }
    AdmissibleAround(chosen, x, t, room, cap);
  }

  lemma MemberAdmitted(chosen: seq<Candidate>, t: seq<Candidate>, x: Candidate, cap: nat)
    requires Admissible(chosen + t, cap) && x in t
    ensures Admits(chosen, x, cap)
  {
    assert Total(InCase(x.caseId), chosen + t) <= 1;
    assert Total(ContactsTo(x.customer), chosen + t) <= cap;
    forall m: Measure | !m.Margin? ensures Total(m, chosen + t) >= Total(m, chosen) + m.Of(x) {
      TotalConcat(m, chosen, t);
      TotalAtLeast(m, t, x);
    }
    TotalNonNegative(InCase(x.caseId), chosen);
  }

  lemma WorthAtMost(p: Price, s: seq<Candidate>, bound: real)
    requires |s| <= 2 && bound >= 0.0
    requires forall c :: c in s ==> p.Reduced(c) <= bound
    ensures Worth(p, s) <= |s| as real * bound
  {
    if |s| == 1 {
      assert s == [] + [s[0]];
      WorthAppend(p, [], s[0]);
    } else if |s| == 2 {
      assert s == ([] + [s[0]]) + [s[1]];
      WorthAppend(p, [], s[0]);
      WorthAppend(p, [s[0]], s[1]);
    }
  }

  /** Room for the heaviest candidate costs at most its own weight, or twice that if caps cross. */
  lemma MakeCheapRoom(all: seq<Candidate>, xs: seq<Candidate>, chosen: seq<Candidate>, t: seq<Candidate>, cap: nat,
                      p: Price) returns (room: seq<Candidate>)
    requires xs != [] && Descending(ByReduced(p), xs) && p.Clears(xs[0])
    requires Admissible(chosen + t, cap) && From(t, xs) && Admits(chosen, xs[0], cap)
    requires From(xs, all) && From(chosen, all)
    ensures Admissible(chosen + [xs[0]] + room, cap) && From(room, xs[1..])
    ensures Worth(p, t) <= Worth(p, room) + 2.0 * p.Reduced(xs[0])
    ensures NoCrossing(all, cap) && CaseOwned(all) ==> Worth(p, t) <= Worth(p, room) + p.Reduced(xs[0])
  {
    var x, dropped := xs[0], [];
    room, dropped := MakeRoom(chosen, x, t, cap);
    forall c | c in room ensures c in xs[1..] {
      TotalAtLeast(InCase(x.caseId), room, c);
      assert c in xs && c != x;
    }
    forall c | c in dropped ensures c in xs && p.Reduced(c) <= p.Reduced(x) {
      var i :| 0 <= i < |xs| && xs[i] == c;
      assert AtLeast(ByReduced(p)(xs[0]), ByReduced(p)(xs[i]));
    }
    WorthAtMost(p, dropped, p.Reduced(x));
    assert |dropped| == 2 ==> dropped[0] in dropped && dropped[1] in dropped;
    assert From(chosen + t, all);
  }

  /**
   From any point of the scan, what the greedy pass still adds is worth at least half of
   any list t that could still be added, and at least all of it when nothing crosses.
   */
  lemma {:induction false} TakeWorth(all: seq<Candidate>, xs: seq<Candidate>, chosen: seq<Candidate>,
                                     t: seq<Candidate>, cap: nat, p: Price)
    requires Descending(ByReduced(p), xs) && forall c :: c in xs ==> p.Clears(c)
    requires Admissible(chosen, cap) && Admissible(chosen + t, cap) && From(t, xs)
    requires From(xs, all) && From(chosen, all)
    ensures 2.0 * (Worth(p, Take(xs, chosen, cap)) - Worth(p, chosen)) >= Worth(p, t)
    ensures NoCrossing(all, cap) && CaseOwned(all) ==>
              Worth(p, Take(xs, chosen, cap)) - Worth(p, chosen) >= Worth(p, t)
    decreases |xs|
  {
    if xs == [] {
      HasMember(t);
    } else {
      var x, rest := xs[0], xs[1..];
      assert forall c :: c in rest ==> c in xs;
      if Admits(chosen, x, cap) {
        var room := MakeCheapRoom(all, xs, chosen, t, cap, p);
        AdmitsExactly(chosen, x, cap);
        TakeWorth(all, rest, chosen + [x], room, cap, p);
        WorthAppend(p, chosen, x);
      } else {
        if x in t {
          MemberAdmitted(chosen, t, x, cap);
        }
        assert forall c :: c in t ==> c in xs && c != x;
        TakeWorth(all, rest, chosen, t, cap, p);
      }
    }
  }

  lemma HasMember(t: seq<Candidate>)
    ensures t == [] || exists c :: c in t
  {
    assert t == [] || t[0] in t;
  }

  /**
   Whatever the multipliers, no admissible list is worth more than twice the selection.
   */
  lemma SelectionIsHalfOptimal(candidates: seq<Candidate>, cap: nat, p: Price, t: seq<Candidate>)
    requires Admissible(t, cap) && From(t, candidates)
    ensures 2.0 * Worth(p, Selected(candidates, cap, p)) >= Worth(p, t)
  {
    var cleared := Filter(ClearsAt(p), t);
    FilterAdmissible(ClearsAt(p), t, cap);
    FilterWorth(p, t);
    ScoredElements(candidates, p);
    assert [] + cleared == cleared;
    TakeWorth(candidates, Scored(candidates, p), [], cleared, cap, p);
  }

  /** When no caps cross, the selection is the best admissible list. */
  lemma SelectionIsOptimal(candidates: seq<Candidate>, cap: nat, p: Price, t: seq<Candidate>)
    requires NoCrossing(candidates, cap) && CaseOwned(candidates)
    requires Admissible(t, cap) && From(t, candidates)
    ensures Worth(p, Selected(candidates, cap, p)) >= Worth(p, t)
  {
    var cleared := Filter(ClearsAt(p), t);
    FilterAdmissible(ClearsAt(p), t, cap);
    FilterWorth(p, t);
    ScoredElements(candidates, p);
    assert [] + cleared == cleared;
    TakeWorth(candidates, Scored(candidates, p), [], cleared, cap, p);
  }
}
