/**
 One planning cycle for one merchant: stop, filter by policy, allocate, act, and spend from
 the ledger what was actually dispatched. Scores, stopping decisions, the other policy rules
 and the dispatcher's answers are inputs; the cycle runs with nobody else planning the same
 merchant.
*/
module PlanCycle {
  import opened Options
  import opened Candidates
  import opened InsertionDict
  import opened Policy
  import opened Selection
  import opened Allocate
  import Certificate
  import BudgetLedger
  import opened Opportunity
  import Passes
  import WeeklyCap

  const PER_CUSTOMER_CONTACTS := 1

  /** One thing the cycle could do about a case, with what scoring and the other rules say of it. */
  datatype Proposal = Proposal(
    kind: ActionKind,
    channel: Channel,
    pct: real,
    discount: nat,
    margin: int,
    channelCost: int,
    request: Request)

  /** A loaded case; `contactsThisWeek` counts its customer's contacts on every case. */
  datatype CaseRow = CaseRow(
    caseId: CaseId,
    customer: Candidates.CustomerId,
    arm: Arm,
    contactsThisWeek: nat,
    stop: bool,
    proposals: seq<Proposal>)

  datatype Key = Key(caseId: CaseId, kind: ActionKind, channel: Channel, pct: real)

  datatype Offer = Offer(row: CaseRow, proposal: Proposal) {
    function AsKey(): Key {
      Key(row.caseId, proposal.kind, proposal.channel, proposal.pct)
    }

    function Verdict(policy: MerchantPolicy): PolicyVerdict {
      Evaluate(proposal.request.(kind := proposal.kind), policy, Context(row.contactsThisWeek, false))
    }

    /** Some rule forbids it, or its customer has had all the contacts of the week. */
    predicate Forbidden(policy: MerchantPolicy) {
      || Block in proposal.request.regulatory || Block in proposal.request.merchant
      || ((proposal.kind.Message? || proposal.kind.VoiceCall? || proposal.kind.DiscountOffer?)
          && row.contactsThisWeek >= policy.maxContactsPerWeek)
    }

    /** Some rule wants a human to look at it, or the amount does. */
    predicate NeedsHuman(policy: MerchantPolicy) {
      || Hold in proposal.request.regulatory || Hold in proposal.request.merchant
      || (!proposal.kind.Suppress? && proposal.request.amount >= policy.approvalThreshold)
    }

    /** What the allocator gets to see. */
    function AsCandidate(id: nat): Candidate {
      Candidate(id, row.caseId, row.customer, proposal.kind, proposal.channel, proposal.margin,
                if proposal.kind.ContactsCustomer() then 1 else 0, proposal.discount, proposal.channelCost)
    }
  }

  predicate Allowed(o: Offer, policy: MerchantPolicy) {
    !o.proposal.kind.Suppress? && !o.Verdict(policy).Block?
  }

  /** A proposal of one of the cases that is an action at all and that no rule forbids. */
  predicate Offered(o: Offer, rows: seq<CaseRow>, policy: MerchantPolicy) {
    o.row in rows && o.proposal in o.row.proposals && !o.proposal.kind.Suppress? && !o.Forbidden(policy)
  }

  lemma VerdictMeans(o: Offer, policy: MerchantPolicy)
    ensures o.Verdict(policy) == if o.Forbidden(policy) then Block else if o.NeedsHuman(policy) then Hold else Allow
  {
    EvaluateMeans(o.proposal.request.(kind := o.proposal.kind), policy, Context(o.row.contactsThisWeek, false));
  }

  ghost predicate DistinctCaseIds(rows: seq<CaseRow>) {
    forall i, j :: 0 <= i < j < |rows| ==> rows[i].caseId != rows[j].caseId
  }

  // Loading

  function Keyed(rows: seq<CaseRow>): seq<(CaseId, CaseRow)> {
    seq(|rows|, i requires 0 <= i < |rows| => (rows[i].caseId, rows[i]))
  }

  function Rows(d: Dict<CaseId, CaseRow>): seq<CaseRow> {
    seq(|d|, i requires 0 <= i < |d| => d[i].1)
  }

  /** The rows by case id: a case loaded twice is worked once. */
  function ByCase(rows: seq<CaseRow>): seq<CaseRow> {
    Rows(Build(Keyed(rows)))
  }

  lemma KeyedDistinct(rows: seq<CaseRow>)
    ensures DistinctKeys(Keyed(rows)) <==> DistinctCaseIds(rows)
  {
    assert forall i :: 0 <= i < |rows| ==> Keyed(rows)[i].0 == rows[i].caseId;
  }

  lemma BuiltRows(rows: seq<CaseRow>)
    ensures var d := Build(Keyed(rows));
            DistinctKeys(d) && forall i :: 0 <= i < |d| ==> d[i].1 in rows && d[i].0 == d[i].1.caseId
  {
    BuildHolds(Keyed(rows));
    var d := Build(Keyed(rows));
    forall i | 0 <= i < |d| ensures d[i].1 in rows && d[i].0 == d[i].1.caseId {
      assert d[i] in d;
    }
  }

  lemma ByCaseRows(rows: seq<CaseRow>)
    ensures DistinctCaseIds(ByCase(rows)) && forall r :: r in ByCase(rows) ==> r in rows
  {
    BuiltRows(rows);
    var d: Dict<CaseId, CaseRow> := Build(Keyed(rows));
    forall i, j | 0 <= i < j < |d| ensures ByCase(rows)[i].caseId != ByCase(rows)[j].caseId {
      assert d[i].0 != d[j].0;
    }
  }

  lemma CountsMatch(rows: seq<CaseRow>)
    ensures |ByCase(rows)| == |rows| <==> DistinctCaseIds(rows)
  {
    BuildSize(Keyed(rows));
    KeyedDistinct(rows);
  }

  lemma RowBuilt(rows: seq<CaseRow>, r: CaseRow)
    requires r in rows
    ensures exists q :: q in ByCase(rows) && q.caseId == r.caseId
  {
    BuildHolds(Keyed(rows));
    BuiltRows(rows);
    var i :| 0 <= i < |rows| && rows[i] == r;
    assert Keyed(rows)[i].0 == r.caseId;
    assert Has(Build(Keyed(rows)), r.caseId);
    var j :| 0 <= j < |Build(Keyed(rows))| && Build(Keyed(rows))[j].0 == r.caseId;
    assert ByCase(rows)[j].caseId == r.caseId;
  }

  /** A case loaded several times is worked as it was loaded last. */
  lemma LastLoadedIsWorked(rows: seq<CaseRow>, i: nat)
    requires i < |rows| && forall j :: i < j < |rows| ==> rows[j].caseId != rows[i].caseId
    ensures rows[i] in ByCase(rows)
  {
    var pairs := Keyed(rows);
    LastAssignmentWins(pairs, i);
    var d := Build(pairs);
    var k :| 0 <= k < |d| && d[k] == (rows[i].caseId, rows[i]);
    assert ByCase(rows)[k] == rows[i];
  }

  /** Every loaded case is worked once; the loaded count is their number exactly if no case came twice. */
  lemma EachCaseOnce(rows: seq<CaseRow>)
    ensures DistinctCaseIds(ByCase(rows))
    ensures forall r :: r in ByCase(rows) ==> r in rows
    ensures forall r :: r in rows ==> exists q :: q in ByCase(rows) && q.caseId == r.caseId
    ensures forall i :: 0 <= i < |rows| && (forall j :: i < j < |rows| ==> rows[j].caseId != rows[i].caseId) ==>
                          rows[i] in ByCase(rows)
    ensures |ByCase(rows)| == |rows| <==> DistinctCaseIds(rows)
  {
    forall i | 0 <= i < |rows| && (forall j :: i < j < |rows| ==> rows[j].caseId != rows[i].caseId)
      ensures rows[i] in ByCase(rows)
    {
      LastLoadedIsWorked(rows, i);
    }
    ByCaseRows(rows);
    CountsMatch(rows);
    forall r | r in rows ensures exists q :: q in ByCase(rows) && q.caseId == r.caseId {
      RowBuilt(rows, r);
    }
  }

  // From an allocated candidate back to its proposal

  function KeyedOffers(offers: seq<Offer>): seq<(Key, Offer)> {
    seq(|offers|, i requires 0 <= i < |offers| => (offers[i].AsKey(), offers[i]))
  }

  predicate SameDraw(entry: (Key, Offer), c: Candidate) {
    && entry.0.caseId == c.caseId && entry.0.kind == c.kind && entry.0.channel == c.channel
    && entry.1.proposal.discount == c.discount
  }

  /** The discount tier of the first indexed proposal that draws what the candidate draws. */
  function IndexDiscount(index: Dict<Key, Offer>, c: Candidate): real {
    if index == [] then 0.0 else if SameDraw(index[0], c) then index[0].0.pct else IndexDiscount(index[1..], c)
  }

  function Pick(index: Dict<Key, Offer>, c: Candidate): Option<Offer> {
    Get(index, Key(c.caseId, c.kind, c.channel, IndexDiscount(index, c)))
  }

  /** A tier fixes the discount of a case: both come from the case's amount. */
  ghost predicate TiersFixDiscounts(offers: seq<Offer>) {
    forall o, q :: o in offers && q in offers && o.AsKey() == q.AsKey() ==> o.proposal.discount == q.proposal.discount
  }

  lemma {:induction false} IndexDiscountFinds(index: Dict<Key, Offer>, c: Candidate, i: nat) returns (j: nat)
    requires i < |index| && SameDraw(index[i], c)
    ensures j < |index| && SameDraw(index[j], c) && index[j].0.pct == IndexDiscount(index, c)
  {
    if SameDraw(index[0], c) {
      j := 0;
    } else {
      assert index[i] == index[1..][i - 1];
      j := IndexDiscountFinds(index[1..], c, i - 1);
      j := j + 1;
    }
  }

  /** The same case, action, channel and resource draw, if perhaps another tier. */
  ghost predicate Matches(o: Offer, c: Candidate) {
    && o.row.caseId == c.caseId && o.proposal.kind == c.kind && o.proposal.channel == c.channel
    && o.proposal.discount == c.discount
  }

  /** Every allocated candidate leads back to a proposal with the same draw on every budget. */
  lemma PickMatches(offers: seq<Offer>, i: nat)
    requires i < |offers| && TiersFixDiscounts(offers)
    ensures var c := offers[i].AsCandidate(i);
            var picked := Pick(Build(KeyedOffers(offers)), c);
            picked.Some? && picked.value in offers && Matches(picked.value, c)
  {
    var pairs := KeyedOffers(offers);
    var index := Build(pairs);
    var c := offers[i].AsCandidate(i);
    BuildHolds(pairs);
    forall e | e in index ensures e.1 in offers && e.0 == e.1.AsKey() {
      assert e in pairs;
    }
    assert pairs[i].0 == offers[i].AsKey();
    assert Has(index, offers[i].AsKey());
    var k :| 0 <= k < |index| && index[k].0 == offers[i].AsKey();
    assert index[k] in index;
    assert SameDraw(index[k], c);
    var j := IndexDiscountFinds(index, c, k);
    var key := Key(c.caseId, c.kind, c.channel, IndexDiscount(index, c));
    assert index[j] in index && index[j].0 == key;
    assert Has(index, key);
    assert (key, Get(index, key).value) in index;
  }

  // Acting

  datatype Answer = Accepted | AlreadyClaimed | Refused

  datatype ActResult = HeldBack | BlockedLate | HeldForReview | DryRun | Dispatched | Duplicated | Failed

  /** The second policy check, and then the dispatcher. */
  function Act(o: Offer, policy: MerchantPolicy, dryRun: bool, answer: Answer): ActResult {
    if o.row.arm.Holdout? then HeldBack
    else
      match o.Verdict(policy)
      case Block => BlockedLate
      case Hold => HeldForReview
      case Allow =>
        if dryRun then DryRun
        else
          match answer
          case Accepted => Dispatched
          case AlreadyClaimed => Duplicated
          case Refused => Failed
  }

  /** How a funded proposal that no rule forbids may end, and exactly when. */
  predicate EndsAs(o: Offer, r: ActResult, policy: MerchantPolicy, dryRun: bool, answer: Answer) {
    var cleared := o.row.arm.Treatment? && !o.NeedsHuman(policy);
    && (r.HeldBack? <==> o.row.arm.Holdout?)
    && !r.BlockedLate?
    && (r.HeldForReview? <==> o.row.arm.Treatment? && o.NeedsHuman(policy))
    && (r.DryRun? <==> cleared && dryRun)
    && (r.Dispatched? <==> cleared && !dryRun && answer.Accepted?)
    && (r.Duplicated? <==> cleared && !dryRun && answer.AlreadyClaimed?)
    && (r.Failed? <==> cleared && !dryRun && answer.Refused?)
  }

  lemma ActEnds(o: Offer, policy: MerchantPolicy, dryRun: bool, answer: Answer)
    requires !o.Forbidden(policy)
    ensures EndsAs(o, Act(o, policy, dryRun, answer), policy, dryRun, answer)
  {
    VerdictMeans(o, policy);
  }

  predicate Spends(r: ActResult) {
    r.DryRun? || r.Dispatched?
  }

  datatype Tally = Tally(
    stopped: nat,
    suppressed: nat,
    dispatched: nat,
    escalated: nat,
    blocked: nat,
    duplicates: nat,
    failed: nat,
    contactsSpent: int,
    discountSpent: int)
  {
    function Cases(): nat {
      stopped + suppressed + dispatched + escalated + blocked + duplicates + failed
    }

    function Add(r: ActResult, o: Offer): Tally {
      match r
      case BlockedLate => this.(blocked := blocked + 1)
      case HeldForReview => this.(escalated := escalated + 1)
      case HeldBack => this.(suppressed := suppressed + 1)
      case Duplicated => this.(duplicates := duplicates + 1)
      case Failed => this.(failed := failed + 1)
      case _ =>
        this.(dispatched := dispatched + 1,
              contactsSpent := contactsSpent + (if o.proposal.kind.ContactsCustomer() then 1 else 0),
              discountSpent := discountSpent + o.proposal.discount)
    }
  }

  const NO_CASES := Tally(0, 0, 0, 0, 0, 0, 0, 0, 0)

  /**
   Sent for a proposal of the right customer's case that is treated and not stopped, that no
   rule forbids or wants a human for, and that has room under the weekly cap if it is a contact.
  */
  ghost predicate FairlySent(c: Candidate, rows: seq<CaseRow>, policy: MerchantPolicy) {
    exists o: Offer :: MaySend(o, c, rows, policy)
  }

  predicate MaySend(o: Offer, c: Candidate, rows: seq<CaseRow>, policy: MerchantPolicy) {
    && o.row in rows && o.proposal in o.row.proposals && o.row.arm.Treatment? && !o.row.stop
    && o.row.caseId == c.caseId && o.row.customer == c.customer
    && o.proposal.kind == c.kind && o.proposal.channel == c.channel && o.proposal.discount == c.discount
    && !o.Forbidden(policy) && !o.NeedsHuman(policy)
    && (c.contacts == 1 ==> o.row.contactsThisWeek < policy.maxContactsPerWeek)
  }

  /** What the allocator is told about a proposal. */
  predicate Represents(c: Candidate, o: Offer) {
    && c.caseId == o.row.caseId && c.customer == o.row.customer
    && c.kind == o.proposal.kind && c.channel == o.proposal.channel
    && c.margin == o.proposal.margin && c.discount == o.proposal.discount && c.channelCost == o.proposal.channelCost
    && (c.contacts == 1 <==> o.proposal.kind.Message? || o.proposal.kind.VoiceCall? || o.proposal.kind.DiscountOffer?)
  }

  /** The allocator's candidates, the offers behind them, and the index built along the way. */
  datatype Gathered = Gathered(candidates: seq<Candidate>, offers: seq<Offer>, index: Dict<Key, Offer>) {
    ghost predicate Coherent() {
      && |candidates| == |offers|
      && (forall i :: 0 <= i < |offers| ==> candidates[i] == offers[i].AsCandidate(i))
      && index == Build(KeyedOffers(offers))
    }

    function Plus(o: Offer): (g: Gathered)
      ensures Coherent() ==> g.Coherent()
    {
      assert KeyedOffers(offers + [o])[..|offers|] == KeyedOffers(offers);
      Gathered(candidates + [o.AsCandidate(|candidates|)], offers + [o], Put(index, o.AsKey(), o))
    }
  }

  /** Adds what the filter lets through of one case. */
  method GatherCase(g: Gathered, row: CaseRow, policy: MerchantPolicy) returns (h: Gathered)
    requires g.Coherent()
    ensures h.Coherent()
    ensures forall o :: o in h.offers <==>
                            o in g.offers || Offered(o, [row], policy)
  {
    h := g;
    for n := 0 to |row.proposals|
      invariant h.Coherent()
      invariant forall o :: o in h.offers <==>
                              o in g.offers || (o.proposal in row.proposals[..n] && Offered(o, [row], policy))
    {
      assert row.proposals[..n + 1] == row.proposals[..n] + [row.proposals[n]];
      var o := Offer(row, row.proposals[n]);
      VerdictMeans(o, policy);
      if Allowed(o, policy) {
        h := h.Plus(o);
      }
    }
    assert row.proposals[..|row.proposals|] == row.proposals;
  }

  /** Everything of every survivor that the filter lets through, and nothing else. */
  method Gather(survivors: seq<CaseRow>, policy: MerchantPolicy) returns (g: Gathered)
    ensures g.Coherent()
    ensures forall o :: o in g.offers <==> Offered(o, survivors, policy)
    ensures forall i :: 0 <= i < |g.offers| ==> Represents(g.candidates[i], g.offers[i])
  {
    g := Gathered([], [], []);
    for k := 0 to |survivors|
      invariant g.Coherent()
      invariant forall o :: o in g.offers <==> Offered(o, survivors[..k], policy)
    {
      assert survivors[..k + 1] == survivors[..k] + [survivors[k]];
      g := GatherCase(g, survivors[k], policy);
    }
    assert survivors[..|survivors|] == survivors;
  }

  function Stops(rows: seq<CaseRow>): nat {
    if rows == [] then 0 else Stops(rows[..|rows| - 1]) + if rows[|rows| - 1].stop then 1 else 0
  }

  /** The cases no stopping rule took. */
  function Kept(rows: seq<CaseRow>): seq<CaseRow> {
    if rows == [] then []
    else Kept(rows[..|rows| - 1]) + if rows[|rows| - 1].stop then [] else [rows[|rows| - 1]]
  }

  lemma SurvivorsDistinct(survivors: seq<CaseRow>, rows: seq<CaseRow>, k: nat)
    requires k < |rows| && DistinctCaseIds(rows) && DistinctCaseIds(survivors)
    requires forall r :: r in survivors ==> r in rows[..k]
    ensures DistinctCaseIds(survivors + [rows[k]])
  {
    forall j | 0 <= j < |survivors| ensures survivors[j].caseId != rows[k].caseId {
      assert survivors[j] in rows[..k];
      var i :| 0 <= i < k && rows[..k][i] == survivors[j];
    }
  }

  lemma KeptAre(rows: seq<CaseRow>)
    requires DistinctCaseIds(rows)
    ensures DistinctCaseIds(Kept(rows)) && forall r :: r in Kept(rows) <==> r in rows && !r.stop
    ensures Stops(rows) + |Kept(rows)| == |rows|
  {
    if rows != [] {
      var k := |rows| - 1;
      assert DistinctCaseIds(rows[..k]);
      KeptAre(rows[..k]);
      assert rows == rows[..k] + [rows[k]];
      SurvivorsDistinct(Kept(rows[..k]), rows, k);
    }
  }

  /** The cases the stopping rules leave, and how many they took. */
  method Survivors(rows: seq<CaseRow>) returns (survivors: seq<CaseRow>, stopped: nat)
    requires DistinctCaseIds(rows)
    ensures survivors == Kept(rows) && DistinctCaseIds(survivors)
    ensures stopped == Stops(rows) && stopped + |survivors| == |rows|
    ensures forall r :: r in survivors <==> r in rows && !r.stop
  {
    survivors, stopped := [], 0;
    for k := 0 to |rows|
      invariant survivors == Kept(rows[..k]) && stopped == Stops(rows[..k])
    {
      assert rows[..k + 1][..k] == rows[..k];
      if rows[k].stop {
        stopped := stopped + 1;
      } else {
        survivors := survivors + [rows[k]];
      }
    }
    assert rows[..|rows|] == rows;
    KeptAre(rows);
  }

  /** The allocated candidate of a case, if it got one. */
  function ChosenFor(chosen: seq<Candidate>, k: CaseId): (c: Option<Candidate>)
    ensures c.Some? ==> c.value in chosen && c.value.caseId == k
    ensures c.None? ==> forall d :: d in chosen ==> d.caseId != k
  {
    if chosen == [] then None
    else if chosen[0].caseId == k then Some(chosen[0])
    else
      assert forall d :: d in chosen ==> d == chosen[0] || d in chosen[1..];
      ChosenFor(chosen[1..], k)
  }

  /** What acting on one chosen candidate leads to; a treated, permitted case is all that spends. */
  lemma ActOnChosen(g: Gathered, survivors: seq<CaseRow>, policy: MerchantPolicy, row: CaseRow, c: Candidate,
                    dryRun: bool, answer: Answer)
    requires g.Coherent() && TiersFixDiscounts(g.offers) && DistinctCaseIds(survivors)
    requires forall o :: o in g.offers ==> Offered(o, survivors, policy)
    requires forall r :: r in survivors ==> !r.stop
    requires c in g.candidates && row in survivors && c.caseId == row.caseId
    ensures var picked := Pick(g.index, c);
            && picked.Some? && picked.value.row == row && Matches(picked.value, c)
            && picked.value in g.offers && Offered(picked.value, survivors, policy)
            && c.contacts == (if picked.value.proposal.kind.ContactsCustomer() then 1 else 0)
            && EndsAs(picked.value, Act(picked.value, policy, dryRun, answer), policy, dryRun, answer)
            && (Spends(Act(picked.value, policy, dryRun, answer)) ==> FairlySent(c, survivors, policy))
  {
    var i :| 0 <= i < |g.candidates| && g.candidates[i] == c;
    PickMatches(g.offers, i);
    var o := Pick(g.index, c).value;
    assert o in g.offers && g.offers[i] in g.offers;
    assert o.row == row == g.offers[i].row;
    ActEnds(o, policy, dryRun, answer);
    if Spends(Act(o, policy, dryRun, answer)) {
      assert MaySend(o, c, survivors, policy);
    }
  }

  /** What has been done for the first k survivors. */
  ghost predicate Progress(tally: Tally, sent: seq<Candidate>, chosen: seq<Candidate>, survivors: seq<CaseRow>,
                           policy: MerchantPolicy, k: nat)
    requires k <= |survivors|
  {
    && tally.Cases() == tally.stopped + k && tally.blocked == 0 && tally.dispatched == |sent|
    && tally.contactsSpent == Total(Contacts, sent) && tally.discountSpent == Total(Discount, sent)
    && multiset(sent) <= multiset(chosen)
    && forall c :: c in sent ==>
         FairlySent(c, survivors, policy) && exists j :: 0 <= j < k && survivors[j].caseId == c.caseId
  }

  lemma SendKeepsProgress(tally: Tally, sent: seq<Candidate>, chosen: seq<Candidate>, survivors: seq<CaseRow>,
                          policy: MerchantPolicy, k: nat, c: Candidate, o: Offer, r: ActResult)
    requires k < |survivors| && Progress(tally, sent, chosen, survivors, policy, k)
    requires DistinctCaseIds(survivors) && c in chosen && c.caseId == survivors[k].caseId && Matches(o, c)
    requires c.contacts == (if o.proposal.kind.ContactsCustomer() then 1 else 0)
    requires Spends(r) && FairlySent(c, survivors, policy)
    ensures Progress(tally.Add(r, o), sent + [c], chosen, survivors, policy, k + 1)
  {
    TotalAppend(Contacts, sent, c);
    TotalAppend(Discount, sent, c);
    assert c !in sent;
    assert multiset(sent + [c]) == multiset(sent) + multiset{c};
    assert multiset(sent)[c] == 0;
    forall d | d in sent + [c]
      ensures FairlySent(d, survivors, policy) && exists j :: 0 <= j < k + 1 && survivors[j].caseId == d.caseId
    {
      if d == c {
        assert survivors[k].caseId == c.caseId;
      }
    }
  }

  /** Everything the acting loop relies on. */
  ghost predicate Prepared(survivors: seq<CaseRow>, g: Gathered, chosen: seq<Candidate>, policy: MerchantPolicy) {
    && g.Coherent() && TiersFixDiscounts(g.offers) && DistinctCaseIds(survivors)
    && (forall o :: o in g.offers ==> Offered(o, survivors, policy))
    && (forall r :: r in survivors ==> !r.stop)
    && From(chosen, g.candidates)
  }

  /** How one case ended, if it was funded at all. */
  type CaseResult = Option<ActResult>

  /**
   A case without a funded candidate does not end at all. One with a funded candidate ends as
   the proposal behind it must, and that proposal is the case's own and draws what the
   candidate draws.
  */
  ghost predicate Explained(row: CaseRow, res: CaseResult, g: Gathered, chosen: seq<Candidate>, policy: MerchantPolicy,
                            dryRun: bool, answer: Answer)
  {
    var c := ChosenFor(chosen, row.caseId);
    && (res.None? <==> c.None?)
    && (c.Some? ==>
          var o := Pick(g.index, c.value);
          && o.Some? && o.value in g.offers && o.value.row == row && Matches(o.value, c.value)
          && res.Some? && EndsAs(o.value, res.value, policy, dryRun, answer))
  }

  ghost predicate AllExplained(rows: seq<CaseRow>, results: seq<CaseResult>, g: Gathered, chosen: seq<Candidate>,
                               policy: MerchantPolicy, dryRun: bool, answers: CaseId -> Answer)
  {
    |results| <= |rows|
    && forall i :: 0 <= i < |results| ==>
         Explained(rows[i], results[i], g, chosen, policy, dryRun, answers(rows[i].caseId))
  }

  /** The candidate sent for a case, if it was funded and acting on it spent anything. */
  function SentBy(row: CaseRow, res: CaseResult, chosen: seq<Candidate>): seq<Candidate> {
    var c := ChosenFor(chosen, row.caseId);
    if (res == Some(DryRun) || res == Some(Dispatched)) && c.Some? then [c.value] else []
  }

  /** Everything the first cases sent, in order. */
  function SentFor(rows: seq<CaseRow>, results: seq<CaseResult>, chosen: seq<Candidate>): seq<Candidate>
    requires |results| <= |rows|
  {
    if results == [] then []
    else
      var k := |results| - 1;
      SentFor(rows, results[..k], chosen) + SentBy(rows[k], results[k], chosen)
  }

  function CountOf(results: seq<CaseResult>, r: CaseResult): nat {
    if results == [] then 0
    else CountOf(results[..|results| - 1], r) + if results[|results| - 1] == r then 1 else 0
  }

  function One(res: CaseResult, r: CaseResult): nat {
    if res == r then 1 else 0
  }

  /** Each bucket counts the cases that ended its way. */
  ghost predicate Counted(tally: Tally, results: seq<CaseResult>) {
    && tally.suppressed == CountOf(results, None) + CountOf(results, Some(HeldBack))
    && tally.dispatched == CountOf(results, Some(DryRun)) + CountOf(results, Some(Dispatched))
    && tally.escalated == CountOf(results, Some(HeldForReview))
    && tally.blocked == CountOf(results, Some(BlockedLate))
    && tally.duplicates == CountOf(results, Some(Duplicated))
    && tally.failed == CountOf(results, Some(Failed))
  }

  ghost predicate CountsOne(before: Tally, after: Tally, res: CaseResult) {
    && after.stopped == before.stopped
    && after.suppressed == before.suppressed + One(res, None) + One(res, Some(HeldBack))
    && after.dispatched == before.dispatched + One(res, Some(DryRun)) + One(res, Some(Dispatched))
    && after.escalated == before.escalated + One(res, Some(HeldForReview))
    && after.blocked == before.blocked + One(res, Some(BlockedLate))
    && after.duplicates == before.duplicates + One(res, Some(Duplicated))
    && after.failed == before.failed + One(res, Some(Failed))
  }

  lemma CountStep(before: Tally, after: Tally, results: seq<CaseResult>, res: CaseResult)
    requires Counted(before, results) && CountsOne(before, after, res)
    ensures Counted(after, results + [res])
  {
    assert (results + [res])[..|results|] == results;
    assert forall r :: CountOf(results + [res], r) == CountOf(results, r) + One(res, r);
  }

  lemma AddCountsOne(before: Tally, o: Offer, r: ActResult)
    ensures CountsOne(before, before.Add(r, o), Some(r))
  {
  }

  lemma OthersKeepProgress(before: Tally, after: Tally, sent: seq<Candidate>, chosen: seq<Candidate>,
                           survivors: seq<CaseRow>, policy: MerchantPolicy, k: nat)
    requires k < |survivors| && Progress(before, sent, chosen, survivors, policy, k)
    requires after.Cases() == before.Cases() + 1 && after.stopped == before.stopped
    requires after == before.(suppressed := after.suppressed, escalated := after.escalated,
                              duplicates := after.duplicates, failed := after.failed)
    ensures Progress(after, sent, chosen, survivors, policy, k + 1)
  {
  }

  /** Acting on the proposal behind a funded candidate counts it, and sends it if it spends anything. */
  lemma FundedMakesProgress(survivors: seq<CaseRow>, chosen: seq<Candidate>, policy: MerchantPolicy, before: Tally,
                            already: seq<Candidate>, k: nat, c: Candidate, o: Offer, r: ActResult)
    requires k < |survivors| && Progress(before, already, chosen, survivors, policy, k) && DistinctCaseIds(survivors)
    requires ChosenFor(chosen, survivors[k].caseId) == Some(c) && Matches(o, c) && !r.BlockedLate?
    requires c.contacts == (if o.proposal.kind.ContactsCustomer() then 1 else 0)
    requires Spends(r) ==> FairlySent(c, survivors, policy)
    ensures Progress(before.Add(r, o), already + SentBy(survivors[k], Some(r), chosen), chosen, survivors, policy,
                     k + 1)
  {
    if Spends(r) {
      SendKeepsProgress(before, already, chosen, survivors, policy, k, c, o, r);
    } else {
      OthersKeepProgress(before, before.Add(r, o), already, chosen, survivors, policy, k);
      assert already + [] == already;
    }
  }

  /** A funded case ends as its proposal does, and the progress made accounts for it. */
  lemma ActsAsFunded(survivors: seq<CaseRow>, g: Gathered, chosen: seq<Candidate>, policy: MerchantPolicy, dryRun: bool,
                     answer: Answer, before: Tally, already: seq<Candidate>, k: nat, c: Candidate)
    requires Prepared(survivors, g, chosen, policy)
    requires k < |survivors| && Progress(before, already, chosen, survivors, policy, k)
    requires ChosenFor(chosen, survivors[k].caseId) == Some(c)
    ensures Pick(g.index, c).Some?
    ensures var o := Pick(g.index, c).value;
            var r := Act(o, policy, dryRun, answer);
            && Explained(survivors[k], Some(r), g, chosen, policy, dryRun, answer)
            && Progress(before.Add(r, o), already + SentBy(survivors[k], Some(r), chosen), chosen, survivors, policy,
                        k + 1)
  {
    ActOnChosen(g, survivors, policy, survivors[k], c, dryRun, answer);
    var o := Pick(g.index, c).value;
    FundedMakesProgress(survivors, chosen, policy, before, already, k, c, o, Act(o, policy, dryRun, answer));
  }

  /** Acts on the k-th survivor if it was funded, and records it as not funded otherwise. */
  method ActOn(survivors: seq<CaseRow>, g: Gathered, chosen: seq<Candidate>, policy: MerchantPolicy, dryRun: bool,
               answer: Answer, before: Tally, ghost already: seq<Candidate>, k: nat)
    returns (tally: Tally, ghost sent: seq<Candidate>, ghost res: CaseResult)
    requires Prepared(survivors, g, chosen, policy)
    requires k < |survivors| && Progress(before, already, chosen, survivors, policy, k)
    ensures Progress(tally, sent, chosen, survivors, policy, k + 1)
    ensures CountsOne(before, tally, res) && Explained(survivors[k], res, g, chosen, policy, dryRun, answer)
    ensures sent == already + SentBy(survivors[k], res, chosen)
  {
    var c := ChosenFor(chosen, survivors[k].caseId);
    if c.None? {
      tally, res, sent := before.(suppressed := before.suppressed + 1), None, already;
      OthersKeepProgress(before, tally, already, chosen, survivors, policy, k);
    } else {
      ActsAsFunded(survivors, g, chosen, policy, dryRun, answer, before, already, k, c.value);
      var o := Pick(g.index, c.value).value;
      var r := Act(o, policy, dryRun, answer);
      tally, res := before.Add(r, o), Some(r);
      AddCountsOne(before, o, r);
      sent := already + SentBy(survivors[k], res, chosen);
    }
  }

  lemma ExplainedStep(survivors: seq<CaseRow>, results: seq<CaseResult>, res: CaseResult, g: Gathered,
                      chosen: seq<Candidate>, policy: MerchantPolicy, dryRun: bool, answers: CaseId -> Answer)
    requires AllExplained(survivors, results, g, chosen, policy, dryRun, answers) && |results| < |survivors|
    requires var row := survivors[|results|];
             Explained(row, res, g, chosen, policy, dryRun, answers(row.caseId))
    ensures AllExplained(survivors, results + [res], g, chosen, policy, dryRun, answers)
  {
    forall i | 0 <= i < |results + [res]|
      ensures Explained(survivors[i], (results + [res])[i], g, chosen, policy, dryRun, answers(survivors[i].caseId))
    {
    }
  }

  lemma SentStep(survivors: seq<CaseRow>, results: seq<CaseResult>, res: CaseResult, chosen: seq<Candidate>)
    requires |results| < |survivors|
    ensures SentFor(survivors, results + [res], chosen)
         == SentFor(survivors, results, chosen) + SentBy(survivors[|results|], res, chosen)
  {
    assert (results + [res])[..|results|] == results;
  }

  /** Acts on every survivor in turn. */
  method ActOnAll(survivors: seq<CaseRow>, g: Gathered, chosen: seq<Candidate>, policy: MerchantPolicy, dryRun: bool,
                  answers: CaseId -> Answer, stopped: nat)
    returns (tally: Tally, ghost sent: seq<Candidate>, ghost results: seq<CaseResult>)
    requires Prepared(survivors, g, chosen, policy)
    ensures Progress(tally, sent, chosen, survivors, policy, |survivors|) && tally.stopped == stopped
    ensures Counted(tally, results) && |results| == |survivors|
    ensures AllExplained(survivors, results, g, chosen, policy, dryRun, answers)
    ensures sent == SentFor(survivors, results, chosen)
  {
    tally, sent, results := NO_CASES.(stopped := stopped), [], [];
    for k := 0 to |survivors|
      invariant Progress(tally, sent, chosen, survivors, policy, k) && tally.stopped == stopped
      invariant |results| == k && Counted(tally, results) && sent == SentFor(survivors, results, chosen)
      invariant AllExplained(survivors, results, g, chosen, policy, dryRun, answers)
    {
      ghost var before, res := tally, None;
      tally, sent, res := ActOn(survivors, g, chosen, policy, dryRun, answers(survivors[k].caseId), tally, sent, k);
      CountStep(before, tally, results, res);
      SentStep(survivors, results, res, chosen);
      ExplainedStep(survivors, results, res, g, chosen, policy, dryRun, answers);
      results := results + [res];
    }
  }

  // The whole cycle

  /** Within a case, a kind, channel and tier fix the discount, which is computed from the case's amount. */
  ghost predicate TiersConsistent(r: CaseRow) {
    forall p, q :: p in r.proposals && q in r.proposals &&
                   p.kind == q.kind && p.channel == q.channel && p.pct == q.pct ==>
      p.discount == q.discount
  }

  lemma OffersConsistent(survivors: seq<CaseRow>, offers: seq<Offer>, policy: MerchantPolicy)
    requires DistinctCaseIds(survivors) && forall r :: r in survivors ==> TiersConsistent(r)
    requires forall o :: o in offers ==> Offered(o, survivors, policy)
    ensures TiersFixDiscounts(offers)
  {
    forall o, q | o in offers && q in offers && o.AsKey() == q.AsKey()
      ensures o.proposal.discount == q.proposal.discount {
      assert o.row in survivors && q.row in survivors && o.row == q.row;
      assert TiersConsistent(o.row);
    }
  }

  /** One case may be contacted or worked silently, another case of the same customer contacted. */
  ghost predicate CapsCross(o: Offer, q: Offer, r: Offer) {
    && o.row.caseId == q.row.caseId && r.row.caseId != o.row.caseId && r.row.customer == o.row.customer
    && o.proposal.kind.ContactsCustomer() && !q.proposal.kind.ContactsCustomer() && r.proposal.kind.ContactsCustomer()
  }

  ghost predicate SomeCapsCross(rows: seq<CaseRow>, policy: MerchantPolicy) {
    exists o, q, r {:trigger CapsCross(o, q, r)} ::
      Offered(o, rows, policy) && Offered(q, rows, policy) && Offered(r, rows, policy) && CapsCross(o, q, r)
  }

  lemma CandidatesOwned(survivors: seq<CaseRow>, g: Gathered, policy: MerchantPolicy)
    requires g.Coherent() && DistinctCaseIds(survivors)
    requires forall o :: o in g.offers ==> Offered(o, survivors, policy)
    ensures CaseOwned(g.candidates) && Identified(g.candidates)
  {
    forall c, d | c in g.candidates && d in g.candidates && c.caseId == d.caseId ensures c.customer == d.customer {
      var i :| 0 <= i < |g.candidates| && g.candidates[i] == c;
      var j :| 0 <= j < |g.candidates| && g.candidates[j] == d;
      assert g.offers[i] in g.offers && g.offers[j] in g.offers;
      assert g.offers[i].row == g.offers[j].row;
    }
  }

  lemma OfferBehind(survivors: seq<CaseRow>, g: Gathered, policy: MerchantPolicy, c: Candidate)
      returns (i: nat, o: Offer)
    requires g.Coherent() && c in g.candidates
    requires forall o :: o in g.offers ==> Offered(o, survivors, policy)
    ensures c == o.AsCandidate(i) && Offered(o, survivors, policy)
  {
    i :| 0 <= i < |g.candidates| && g.candidates[i] == c;
    o := g.offers[i];
    assert o in g.offers;
  }

  lemma CrossedCandidates(survivors: seq<CaseRow>, g: Gathered, policy: MerchantPolicy)
    requires g.Coherent() && !NoCrossing(g.candidates, PER_CUSTOMER_CONTACTS)
    requires forall o :: o in g.offers ==> Offered(o, survivors, policy)
    ensures SomeCapsCross(survivors, policy)
  {
    var x, y, others :|
      x in g.candidates && y in g.candidates && From(others, g.candidates)
      && Crossing(x, y, others, PER_CUSTOMER_CONTACTS);
    var z := others[0];
    assert z in others;
    var i, o := OfferBehind(survivors, g, policy, x);
    var j, q := OfferBehind(survivors, g, policy, y);
    var k, r := OfferBehind(survivors, g, policy, z);
    assert CapsCross(o, q, r);
  }

  /** The certificate can only fail where a customer's caps cross. */
  lemma ViolationNeedsCrossedCaps(survivors: seq<CaseRow>, g: Gathered, policy: MerchantPolicy, b: Budgets,
                                  p: Price, funded: seq<Candidate>)
    requires g.Coherent() && DistinctCaseIds(survivors)
    requires forall o :: o in g.offers ==> Offered(o, survivors, policy)
    requires Feasible(funded, b) && From(funded, g.candidates) && p.NonNegative()
    requires Certificate.Dual(g.candidates, b, p) < Total(Margin, funded) as real
    ensures SomeCapsCross(survivors, policy)
  {
    CandidatesOwned(survivors, g, policy);
    if NoCrossing(g.candidates, PER_CUSTOMER_CONTACTS) {
      if b.perCustomer >= 1 {
        CrossingsThinOut(g.candidates, PER_CUSTOMER_CONTACTS, b.perCustomer);
      }
      Certificate.DualBoundsEveryPlan(g.candidates, b, p, funded);
      assert false;
    }
    CrossedCandidates(survivors, g, policy);
  }

  lemma NothingAdded(t: BudgetLedger.Table, slot: BudgetLedger.Slot)
    ensures BudgetLedger.Execute(t, BudgetLedger.ConditionalAdd(slot, 0)) == t
  {
    if slot in t {
      assert t[slot].(consumed := t[slot].consumed + 0) == t[slot];
      assert t[slot := t[slot]] == t;
    }
  }

  /** The ledger after the two spends of a cycle. */
  function Charged(t: BudgetLedger.Table, contact: BudgetLedger.Slot, discount: BudgetLedger.Slot,
                   contacts: int, paise: int):
    BudgetLedger.Table
  {
    BudgetLedger.Execute(BudgetLedger.Execute(t, BudgetLedger.ConditionalAdd(contact, contacts)),
                         BudgetLedger.ConditionalAdd(discount, paise))
  }

  /** One spend of what is known to remain. */
  method SpendUsed(ledger: BudgetLedger.Ledger, slot: BudgetLedger.Slot, amount: int) returns (refused: bool)
    requires slot in ledger.table && 0 <= amount <= ledger.table[slot].Remaining()
    modifies ledger
    ensures !refused && ledger.table ==
                BudgetLedger.Execute(old(ledger.table), BudgetLedger.ConditionalAdd(slot, amount))
    ensures ledger.table.Keys == old(ledger.table).Keys
    ensures forall other :: other in old(ledger.table) && other != slot ==>
                              ledger.table[other] == old(ledger.table)[other]
    ensures ledger.table[slot].consumed == old(ledger.table)[slot].consumed + amount
    ensures amount > 0 ==> ledger.table[slot].consumed <= ledger.table[slot].limit
  {
    refused := false;
    if amount > 0 {
      var result := ledger.Spend(slot, amount);
      refused := !result.Consumed?;
    } else {
      NothingAdded(ledger.table, slot);
    }
  }

  datatype CycleResult =
    | Completed(considered: nat, tally: Tally)
    | DualViolated(considered: nat, stopped: nat)
    | SpendRefused

  /** What one pass over the cases guarantees when the allocation is certified. */
  ghost predicate Worked(tally: Tally, sent: seq<Candidate>, byCase: seq<CaseRow>, policy: MerchantPolicy) {
    && tally.Cases() == |byCase| && tally.stopped == Stops(byCase)
    && tally.blocked == 0 && tally.dispatched == |sent|
    && tally.contactsSpent == Total(Contacts, sent) && tally.discountSpent == Total(Discount, sent)
    && forall c :: c in sent ==> FairlySent(c, byCase, policy)
  }

  /** What a cycle gathered, what the allocator made of it, and how each case that was not stopped ended. */
  datatype Trace = Trace(
    g: Gathered,
    solved: Outcome,
    funded: seq<Candidate>,
    swaps: nat,
    results: seq<CaseResult>,
    sent: seq<Candidate>)

  const IDLE := Trace(Gathered([], [], []), Allocated(Allocation([], 0, 0, 0, Certificate.FREE, 0.0, 0)), [], 0, [], [])

  /** The allocator saw exactly what the filter let through, and its plan is what allocating guarantees. */
  ghost predicate Planned(t: Trace, byCase: seq<CaseRow>, b: Budgets, policy: MerchantPolicy) {
    && t.g.Coherent() && (forall o :: o in t.g.offers <==> Offered(o, Kept(byCase), policy))
    && (forall i :: 0 <= i < |t.g.offers| ==> Represents(t.g.candidates[i], t.g.offers[i]))
    && Solves(t.solved, t.funded, t.swaps, t.g.candidates, b)
  }

  /**
   Every case ended as the plan says, each bucket counts the cases that ended its way, and what
   was sent is exactly the funded candidates of the cases that spent something.
  */
  ghost predicate Carried(t: Trace, tally: Tally, byCase: seq<CaseRow>, policy: MerchantPolicy, dryRun: bool,
                          answers: CaseId -> Answer)
  {
    && t.solved.Allocated?
    && |t.results| == |Kept(byCase)| && Counted(tally, t.results)
    && AllExplained(Kept(byCase), t.results, t.g, t.solved.plan.chosen, policy, dryRun, answers)
    && t.sent == SentFor(Kept(byCase), t.results, t.solved.plan.chosen)
    && multiset(t.sent) <= multiset(t.solved.plan.chosen)
  }

  lemma ProgressIsWork(tally: Tally, sent: seq<Candidate>, chosen: seq<Candidate>, survivors: seq<CaseRow>,
                       byCase: seq<CaseRow>, policy: MerchantPolicy)
    requires Progress(tally, sent, chosen, survivors, policy, |survivors|)
    requires tally.stopped == Stops(byCase) && tally.stopped + |survivors| == |byCase|
    requires forall r :: r in survivors ==> r in byCase
    ensures Worked(tally, sent, byCase, policy)
  {
    forall c | c in sent ensures FairlySent(c, byCase, policy) {
      assert FairlySent(c, survivors, policy);
      var o: Offer :| MaySend(o, c, survivors, policy);
      assert MaySend(o, c, byCase, policy);
    }
  }

  lemma CrossedAmong(survivors: seq<CaseRow>, byCase: seq<CaseRow>, policy: MerchantPolicy)
    requires SomeCapsCross(survivors, policy) && forall r :: r in survivors ==> r in byCase
    ensures SomeCapsCross(byCase, policy)
  {
    var o, q, r :|
      Offered(o, survivors, policy) && Offered(q, survivors, policy) && Offered(r, survivors, policy)
      && CapsCross(o, q, r);
    assert Offered(o, byCase, policy) && Offered(q, byCase, policy) && Offered(r, byCase, policy);
  }

  lemma ReadyToAct(byCase: seq<CaseRow>, g: Gathered, chosen: seq<Candidate>, policy: MerchantPolicy)
    requires DistinctCaseIds(byCase) && forall r :: r in byCase ==> TiersConsistent(r)
    requires g.Coherent() && (forall o :: o in g.offers ==> Offered(o, Kept(byCase), policy))
    requires From(chosen, g.candidates)
    ensures Prepared(Kept(byCase), g, chosen, policy)
  {
    KeptAre(byCase);
    OffersConsistent(Kept(byCase), g.offers, policy);
  }

  /** Stops, filters and allocates. */
  method Prepare(byCase: seq<CaseRow>, b: Budgets, policy: MerchantPolicy)
    returns (survivors: seq<CaseRow>, stopped: nat, g: Gathered, solved: Outcome, ghost t: Trace)
    requires DistinctCaseIds(byCase)
    ensures survivors == Kept(byCase) && stopped == Stops(byCase) && stopped + |survivors| == |byCase|
    ensures Planned(t, byCase, b, policy) && t.g == g && t.solved == solved
  {
    survivors, stopped := Survivors(byCase);
    g := Gather(survivors, policy);
    CandidatesOwned(survivors, g, policy);
    ghost var funded, swaps;
    solved, funded, swaps := Allocate.Allocate(g.candidates, b);
    t := Trace(g, solved, funded, swaps, [], []);
  }

  /** Plans, then acts on every survivor; fails only if the allocation is not certified. */
  method Work(byCase: seq<CaseRow>, b: Budgets, policy: MerchantPolicy, dryRun: bool, answers: CaseId -> Answer)
    returns (certified: bool, tally: Tally, ghost t: Trace)
    requires DistinctCaseIds(byCase) && forall r :: r in byCase ==> TiersConsistent(r)
    requires b.perCustomer == PER_CUSTOMER_CONTACTS
    ensures Planned(t, byCase, b, policy) && certified == t.solved.Allocated?
    ensures certified ==> Worked(tally, t.sent, byCase, policy) && Feasible(t.sent, b)
    ensures certified ==> Carried(t, tally, byCase, policy, dryRun, answers)
    ensures !certified ==> SomeCapsCross(byCase, policy) && tally.stopped == Stops(byCase)
  {
    var survivors, stopped, g, solved;
    survivors, stopped, g, solved, t := Prepare(byCase, b, policy);
    KeptAre(byCase);
    tally, certified := NO_CASES.(stopped := stopped), solved.Allocated?;
    if !certified {
      ViolationNeedsCrossedCaps(survivors, g, policy, b, solved.Prices(), t.funded);
      CrossedAmong(survivors, byCase, policy);
      return;
    }
    ReadyToAct(byCase, g, solved.plan.chosen, policy);
    ghost var sent, results;
    tally, sent, results := ActOnAll(survivors, g, solved.plan.chosen, policy, dryRun, answers, stopped);
    t := t.(results := results, sent := sent);
    Passes.PartFeasible(sent, solved.plan.chosen, b.perCustomer);
    ProgressIsWork(tally, sent, solved.plan.chosen, survivors, byCase, policy);
  }

  /** The two default rows a cycle makes sure of before it reads what remains. */
  function Loaded(t: BudgetLedger.Table, contact: BudgetLedger.Slot, discount: BudgetLedger.Slot): BudgetLedger.Table {
    BudgetLedger.Execute(BudgetLedger.Execute(t, BudgetLedger.InsertDefault(contact)),
                         BudgetLedger.InsertDefault(discount))
  }

  lemma LoadedIsFound(t: BudgetLedger.Table, contact: BudgetLedger.Slot, discount: BudgetLedger.Slot)
    requires contact != discount
    ensures Loaded(t, contact, discount)
         == t[contact := BudgetLedger.Found(t, contact)][discount := BudgetLedger.Found(t, discount)]
  {
  }

  /** What is left of one budget. */
  function Left(e: BudgetLedger.Entry): nat {
    if e.consumed < e.limit then e.limit - e.consumed else 0
  }

  function Remaining(t: BudgetLedger.Table, contact: BudgetLedger.Slot, discount: BudgetLedger.Slot): Budgets
    requires contact in t && discount in t
  {
    Budgets(Left(t[contact]), Left(t[discount]), 1)
  }

  /** Exactly what was used is charged, and only where there was something to charge. */
  ghost predicate ChargedExactly(before: BudgetLedger.Table, after: BudgetLedger.Table, contact: BudgetLedger.Slot,
                                 discount: BudgetLedger.Slot, contacts: int, paise: int)
  {
    && contact in before && discount in before && contact in after && discount in after
    && after == Charged(before, contact, discount, contacts, paise)
    && after[contact].consumed == before[contact].consumed + contacts
    && after[discount].consumed == before[discount].consumed + paise
  }

  method SpendBoth(ledger: BudgetLedger.Ledger, contact: BudgetLedger.Slot, discount: BudgetLedger.Slot,
                   contacts: int, paise: int)
    returns (refused: bool)
    requires contact != discount && contact in ledger.table && discount in ledger.table
    requires 0 <= contacts <= ledger.table[contact].Remaining() && 0 <= paise <= ledger.table[discount].Remaining()
    modifies ledger
    ensures !refused && ChargedExactly(old(ledger.table), ledger.table, contact, discount, contacts, paise)
  {
    refused := SpendUsed(ledger, contact, contacts);
    if !refused {
      refused := SpendUsed(ledger, discount, paise);
    }
  }

  method LoadBoth(ledger: BudgetLedger.Ledger, contact: BudgetLedger.Slot, discount: BudgetLedger.Slot)
      returns (b: Budgets)
    modifies ledger
    ensures ledger.table == Loaded(old(ledger.table), contact, discount)
    ensures contact in ledger.table && discount in ledger.table && b == Remaining(ledger.table, contact, discount)
  {
    var contactEntry := ledger.Load(contact);
    var discountEntry := ledger.Load(discount);
    b := Budgets(contactEntry.Remaining(), discountEntry.Remaining(), PER_CUSTOMER_CONTACTS);
  }

  lemma SentIsAffordable(sent: seq<Candidate>, b: Budgets)
    requires Feasible(sent, b)
    ensures 0 <= Total(Contacts, sent) <= b.contacts && 0 <= Total(Discount, sent) <= b.discount
  {
    TotalNonNegative(Contacts, sent);
    TotalNonNegative(Discount, sent);
  }

  /** What a completed cycle leaves in the ledger, given the ledger it found. */
  ghost predicate Settled(loaded: BudgetLedger.Table, after: BudgetLedger.Table, contact: BudgetLedger.Slot,
                          discount: BudgetLedger.Slot, tally: Tally, sent: seq<Candidate>, dryRun: bool)
  {
    && contact in loaded && discount in loaded
    && Feasible(sent, Remaining(loaded, contact, discount))
    && (if dryRun then after == loaded
        else ChargedExactly(loaded, after, contact, discount, tally.contactsSpent, tally.discountSpent))
  }

  /** Works the cases against the loaded budgets and charges what was used. */
  method WorkAndSpend(ledger: BudgetLedger.Ledger, contact: BudgetLedger.Slot, discount: BudgetLedger.Slot,
                      byCase: seq<CaseRow>, policy: MerchantPolicy, dryRun: bool, answers: CaseId -> Answer)
    returns (certified: bool, refused: bool, tally: Tally, ghost t: Trace)
    requires DistinctCaseIds(byCase) && forall r :: r in byCase ==> TiersConsistent(r)
    requires contact != discount && contact in ledger.table && discount in ledger.table
    modifies ledger
    ensures !refused && certified == t.solved.Allocated?
    ensures Planned(t, byCase, Remaining(old(ledger.table), contact, discount), policy)
    ensures certified ==> Worked(tally, t.sent, byCase, policy)
                          && Settled(old(ledger.table), ledger.table, contact, discount, tally, t.sent, dryRun)
                          && Carried(t, tally, byCase, policy, dryRun, answers)
    ensures !certified ==> SomeCapsCross(byCase, policy) && ledger.table == old(ledger.table)
                           && tally.stopped == Stops(byCase)
  {
    var b := Remaining(ledger.table, contact, discount);
    refused := false;
    certified, tally, t := Work(byCase, b, policy, dryRun, answers);
    if certified && !dryRun {
      SentIsAffordable(t.sent, b);
      refused := SpendBoth(ledger, contact, discount, tally.contactsSpent, tally.discountSpent);
    }
  }

  /** Everything a cycle over some cases promises, given the ledger it loaded and the ledger it left. */
  ghost predicate Cycled(result: CycleResult, t: Trace, loaded: BudgetLedger.Table, after: BudgetLedger.Table,
                         contact: BudgetLedger.Slot, discount: BudgetLedger.Slot, rows: seq<CaseRow>,
                         policy: MerchantPolicy, dryRun: bool, answers: CaseId -> Answer)
  {
    && contact in loaded && discount in loaded
    && Planned(t, ByCase(rows), Remaining(loaded, contact, discount), policy)
    && match result
       case Completed(considered, tally) =>
         && considered == |rows|
         && Worked(tally, t.sent, ByCase(rows), policy)
         && Carried(t, tally, ByCase(rows), policy, dryRun, answers)
         && Settled(loaded, after, contact, discount, tally, t.sent, dryRun)
       case DualViolated(considered, stopped) =>
         && considered == |rows| && stopped == Stops(ByCase(rows))
         && t.solved.Uncertified? && SomeCapsCross(ByCase(rows), policy) && after == loaded
       case SpendRefused => false
  }

  /** A cycle with something to plan. */
  method PlanCases(ledger: BudgetLedger.Ledger, contact: BudgetLedger.Slot, discount: BudgetLedger.Slot,
                   rows: seq<CaseRow>, policy: MerchantPolicy, dryRun: bool, answers: CaseId -> Answer)
    returns (result: CycleResult, ghost t: Trace)
    requires contact != discount && forall r :: r in rows ==> TiersConsistent(r)
    modifies ledger
    ensures Cycled(result, t, Loaded(old(ledger.table), contact, discount), ledger.table, contact, discount, rows,
                   policy, dryRun, answers)
  {
    ByCaseRows(rows);
    var b := LoadBoth(ledger, contact, discount);
    var certified, refused, tally;
    certified, refused, tally, t := WorkAndSpend(ledger, contact, discount, ByCase(rows), policy, dryRun, answers);
    if refused {
      return SpendRefused, t;
    }
    result := if certified then Completed(|rows|, tally) else DualViolated(|rows|, tally.stopped);
  }

  /**
   Plans and acts once. The allocator sees exactly what the filter let through and beats both
   heuristics on it; every case ends as its funded proposal, or its lack of one, says and lands
   in exactly one bucket; what was sent is the funded candidates of the cases that spent
   something, fits the budgets and the caps, and is exactly what the ledger is charged. Nothing
   is blocked late or refused; the only way to fail is a certificate that crossed caps can break.
  */
  method Plan(ledger: BudgetLedger.Ledger, merchant: nat, window: int, rows: seq<CaseRow>, policy: MerchantPolicy,
              dryRun: bool, answers: CaseId -> Answer)
    returns (result: CycleResult, ghost t: Trace)
    requires forall r :: r in rows ==> TiersConsistent(r)
    modifies ledger
    ensures rows == [] ==> result == Completed(0, NO_CASES) && ledger.table == old(ledger.table) && t == IDLE
    ensures rows != [] ==>
              var contact, discount := BudgetLedger.Slot(merchant, BudgetLedger.ContactKind, window),
                                       BudgetLedger.Slot(merchant, BudgetLedger.DiscountKind, window);
              var loaded := Loaded(old(ledger.table), contact, discount);
              && loaded == old(ledger.table)[contact := BudgetLedger.Found(old(ledger.table), contact)]
                                            [discount := BudgetLedger.Found(old(ledger.table), discount)]
              && Cycled(result, t, loaded, ledger.table, contact, discount, rows, policy, dryRun, answers)
  {
    if rows == [] {
      return Completed(0, NO_CASES), IDLE;
    }
    var contact := BudgetLedger.Slot(merchant, BudgetLedger.ContactKind, window);
    var discount := BudgetLedger.Slot(merchant, BudgetLedger.DiscountKind, window);
    LoadedIsFound(ledger.table, contact, discount);
    result, t := PlanCases(ledger, contact, discount, rows, policy, dryRun, answers);
  }

  /** A ledger that was sound stays sound through a cycle. */
  lemma CycleKeepsLedgerSound(before: BudgetLedger.Table, after: BudgetLedger.Table, contact: BudgetLedger.Slot,
                              discount: BudgetLedger.Slot, tally: Tally, sent: seq<Candidate>, dryRun: bool)
    requires BudgetLedger.Sound(before)
    requires Settled(Loaded(before, contact, discount), after, contact, discount, tally, sent, dryRun)
    requires tally.contactsSpent == Total(Contacts, sent) && tally.discountSpent == Total(Discount, sent)
    ensures BudgetLedger.Sound(after)
  {
    var loaded := Loaded(before, contact, discount);
    BudgetLedger.NoInterleavingOverspends(before, [BudgetLedger.InsertDefault(contact)]);
    assert BudgetLedger.Sound(BudgetLedger.Execute(before, BudgetLedger.InsertDefault(contact)));
    assert BudgetLedger.Sound(loaded);
    var charged := BudgetLedger.Execute(loaded, BudgetLedger.ConditionalAdd(contact, tally.contactsSpent));
    assert 0 <= tally.contactsSpent && 0 <= tally.discountSpent by {
      SentIsAffordable(sent, Remaining(loaded, contact, discount));
    }
    assert BudgetLedger.Sound(charged);
  }

  // The weekly cap

  /** What a cycle sends to customers, all at one instant. */
  function ContactsOf(sent: seq<Candidate>, at: WeeklyCap.Instant): seq<WeeklyCap.Contact> {
    if sent == [] then []
    else
      var last := sent[|sent| - 1];
      ContactsOf(sent[..|sent| - 1], at) + if last.contacts == 1 then [WeeklyCap.Contact(last.customer, at)] else []
  }

  lemma {:induction false} ContactsAreCounted(sent: seq<Candidate>, at: WeeklyCap.Instant, i: nat)
    requires i < |ContactsOf(sent, at)|
    ensures var k := ContactsOf(sent, at)[i];
            && k.at == at && Total(ContactsTo(k.customer), sent) >= 1
            && exists c :: c in sent && c.contacts == 1 && c.customer == k.customer
    decreases |sent|
  {
    var rest, last := sent[..|sent| - 1], sent[|sent| - 1];
    var k := ContactsOf(sent, at)[i];
    TotalNonNegative(ContactsTo(k.customer), rest);
    if i < |ContactsOf(rest, at)| {
      ContactsAreCounted(rest, at, i);
      var c :| c in rest && c.contacts == 1 && c.customer == k.customer;
      assert c in sent;
    } else {
      assert last in sent;
    }
  }

  lemma {:induction false} EveryContactIsCounted(sent: seq<Candidate>, at: WeeklyCap.Instant)
    ensures |ContactsOf(sent, at)| == Total(Contacts, sent)
    decreases |sent|
  {
    if sent != [] {
      EveryContactIsCounted(sent[..|sent| - 1], at);
    }
  }

  lemma {:induction false} OneContactEach(sent: seq<Candidate>, at: WeeklyCap.Instant)
    requires Capped(sent, 1)
    ensures forall i, j :: 0 <= i < j < |ContactsOf(sent, at)| ==>
                             ContactsOf(sent, at)[i].customer != ContactsOf(sent, at)[j].customer
    decreases |sent|
  {
    if sent != [] {
      var rest, last := sent[..|sent| - 1], sent[|sent| - 1];
      forall x ensures Total(ContactsTo(x), rest) <= 1 {
        assert Total(ContactsTo(x), sent) <= 1;
      }
      OneContactEach(rest, at);
      if last.contacts == 1 {
        forall i | 0 <= i < |ContactsOf(rest, at)| ensures ContactsOf(rest, at)[i].customer != last.customer {
          ContactsAreCounted(rest, at, i);
          assert Total(ContactsTo(last.customer), sent) <= 1;
        }
      }
    }
  }

  /** A completed cycle is a batch the weekly cap admits, if its rows counted the week before it. */
  lemma CycleRespectsWeeklyCap(tally: Tally, sent: seq<Candidate>, byCase: seq<CaseRow>, policy: MerchantPolicy,
                               history: seq<WeeklyCap.Contact>, asOf: WeeklyCap.Instant, at: WeeklyCap.Instant)
    requires Worked(tally, sent, byCase, policy) && Capped(sent, PER_CUSTOMER_CONTACTS)
    requires forall r :: r in byCase ==> r.contactsThisWeek == WeeklyCap.Week(history, r.customer, asOf)
    ensures WeeklyCap.Admitted(history, WeeklyCap.Batch(asOf, ContactsOf(sent, at)), policy.maxContactsPerWeek)
    ensures |ContactsOf(sent, at)| == Total(Contacts, sent)
  {
    OneContactEach(sent, at);
    EveryContactIsCounted(sent, at);
    forall i | 0 <= i < |ContactsOf(sent, at)|
      ensures ContactsOf(sent, at)[i].at == at
      ensures WeeklyCap.Week(history, ContactsOf(sent, at)[i].customer, asOf) < policy.maxContactsPerWeek
    {
      ContactsAreCounted(sent, at, i);
      var c :| c in sent && c.contacts == 1 && c.customer == ContactsOf(sent, at)[i].customer;
      assert FairlySent(c, byCase, policy);
    }
  }
}
