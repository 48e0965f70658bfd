/**
 What a case is worth before anything is allocated: the best option the merchant can afford,
 and whether the discount budget is all that stands in the way of a worthwhile one.
*/
module BestOption {
  import opened Candidates

  const MIN_EXPECTED_MARGIN_PAISE := 500

  /** A proposal as the stopping rules see it. */
  datatype Scored = Scored(kind: ActionKind, contacts: nat, discount: nat, channelCost: int, margin: int,
                           uplift: real) {
    predicate Costless() {
      && !kind.ContactsCustomer() && !kind.Suppress? && !kind.Escalate?
      && contacts == 0 && discount == 0 && channelCost == 0
    }
  }

  /** A retry, a scheduled debit or a bare payment link that draws on nothing. */
  predicate Free(o: Scored) {
    && (o.kind.SilentRetry? || o.kind.ScheduleDebit? || o.kind.PaymentLink?)
    && o.contacts == 0 && o.discount == 0 && o.channelCost == 0
  }

  datatype Best = Best(uplift: real, margin: int, blockedOnDiscount: bool, hasCostless: bool)

  /** Some real action is in reach of a budget and worth at least this much. */
  ghost predicate Reaches(options: seq<Scored>, budget: nat, margin: int) {
    exists i :: 0 <= i < |options| && !options[i].kind.Suppress? && options[i].discount <= budget
                && options[i].margin >= margin
  }

  ghost predicate Worthwhile(options: seq<Scored>, margin: int) {
    exists i :: 0 <= i < |options| && !options[i].kind.Suppress? && options[i].margin >= margin
  }

  /** The margin and uplift of one affordable option that no affordable option beats. */
  ghost predicate BestInReach(options: seq<Scored>, budget: nat, margin: int, uplift: real) {
    && margin >= 0
    && (forall i :: 0 <= i < |options| && !options[i].kind.Suppress? && options[i].discount <= budget ==>
                      options[i].margin <= margin)
    && (margin > 0 ==>
          exists i :: 0 <= i < |options| && !options[i].kind.Suppress? && options[i].discount <= budget
                      && options[i].margin == margin && options[i].uplift == uplift)
  }

  /** The largest uplift among real actions, or zero if there is none. */
  ghost predicate LargestUplift(options: seq<Scored>, uplift: real) {
    && (forall i :: 0 <= i < |options| && !options[i].kind.Suppress? ==> options[i].uplift <= uplift)
    && ((exists i :: 0 <= i < |options| && !options[i].kind.Suppress? && options[i].uplift == uplift)
        || (uplift == 0.0 && forall i :: 0 <= i < |options| ==> options[i].kind.Suppress?))
  }

  method MaxUplift(options: seq<Scored>) returns (uplift: real)
    ensures LargestUplift(options, uplift)
  {
    uplift := 0.0;
    var found := false;
    for k := 0 to |options|
      invariant found ==> exists i :: 0 <= i < k && !options[i].kind.Suppress? && options[i].uplift == uplift
      invariant !found ==> uplift == 0.0 && forall i :: 0 <= i < k ==> options[i].kind.Suppress?
      invariant forall i :: 0 <= i < k && !options[i].kind.Suppress? ==> options[i].uplift <= uplift
    {
      if !options[k].kind.Suppress? && (!found || options[k].uplift > uplift) {
        uplift, found := options[k].uplift, true;
      }
    }
  }

  /**
   One pass over the options. The discount budget is reported as the obstacle exactly when a
   worthwhile action exists and none that fits the remaining budget is worthwhile.
  */
  method BestMargin(options: seq<Scored>, discountRemaining: nat) returns (best: Best)
    ensures BestInReach(options, discountRemaining, best.margin, best.uplift)
    ensures best.margin == 0 ==> LargestUplift(options, best.uplift)
    ensures best.blockedOnDiscount <==>
              Worthwhile(options, 500) && !Reaches(options, discountRemaining, 500)
    ensures best.hasCostless <==> exists i :: 0 <= i < |options| && Free(options[i])
  {
    var affordable, unconstrained := 0, 0;
    var uplift := 0.0;
    var needsDiscount, costless := false, false;
    for k := 0 to |options|
      invariant BestInReach(options[..k], discountRemaining, affordable, uplift)
      invariant unconstrained >= affordable
      invariant forall i :: 0 <= i < k && !options[i].kind.Suppress? ==> options[i].margin <= unconstrained
      invariant unconstrained > 0 ==>
                  exists i :: 0 <= i < k && !options[i].kind.Suppress? && options[i].margin == unconstrained
                              && needsDiscount == (options[i].discount > 0)
      invariant costless <==> exists i :: 0 <= i < k && Free(options[i])
    {
      var c := options[k];
      assert options[..k + 1] == options[..k] + [c];
      ghost var seen := options[..k + 1];
      assert seen[k] == c && forall i :: 0 <= i < k ==> seen[i] == options[..k][i];
      if !c.kind.Suppress? {
        if c.Costless() {
          costless := true;
        }
        if c.margin > unconstrained {
          unconstrained, needsDiscount := c.margin, c.discount > 0;
        }
        if c.discount <= discountRemaining && c.margin > affordable {
          affordable, uplift := c.margin, c.uplift;
        }
      }
    }
    assert options[..|options|] == options;
    if affordable == 0 {
      uplift := MaxUplift(options);
    }
    best := Best(uplift, affordable,
                 affordable < MIN_EXPECTED_MARGIN_PAISE <= unconstrained && needsDiscount, costless);
  }
}
