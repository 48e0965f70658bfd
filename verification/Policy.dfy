/**
 The policy engine. Two packs of rules reduce to one verdict. Two merchant rules are spelled
 out, the weekly contact cap and the approval threshold; the verdicts of all other rules are
 part of the request.
*/
module Policy {
  import opened Candidates

  /** `Hold` is the engine's escalation: valid work that waits for a human. */
  datatype PolicyVerdict = Allow | Hold | Block {
    function Rank(): nat {
      match this
      case Allow => 0
      case Hold => 1
      case Block => 2
    }
  }

  datatype MerchantPolicy = MerchantPolicy(maxContactsPerWeek: int, approvalThreshold: int)

  datatype Context = Context(contactsThisWeek: int, humanApproved: bool)

  datatype Request = Request(kind: ActionKind, amount: int,
                             regulatory: seq<PolicyVerdict>, merchant: seq<PolicyVerdict>)

  function ContactCap(r: Request, p: MerchantPolicy, ctx: Context): PolicyVerdict {
    if r.kind.ContactsCustomer() && ctx.contactsThisWeek >= p.maxContactsPerWeek then Block else Allow
  }

  function ApprovalThreshold(r: Request, p: MerchantPolicy, ctx: Context): PolicyVerdict {
    if r.kind.Suppress? then Allow
    else if r.amount >= p.approvalThreshold && !ctx.humanApproved then Hold
    else Allow
  }

  function MerchantResults(r: Request, p: MerchantPolicy, ctx: Context): seq<PolicyVerdict> {
    [ContactCap(r, p, ctx)] + r.merchant + [ApprovalThreshold(r, p, ctx)]
  }

  function Reduce(results: seq<PolicyVerdict>): PolicyVerdict {
    if Block in results then Block else if Hold in results then Hold else Allow
  }

  function Evaluate(r: Request, p: MerchantPolicy, ctx: Context): PolicyVerdict {
    Reduce(r.regulatory + MerchantResults(r, p, ctx))
  }

  predicate IsFeasible(r: Request, p: MerchantPolicy, ctx: Context) {
    !Evaluate(r, p, ctx).Block?
  }

  function Max(a: nat, b: nat): nat {
    if a > b then a else b
  }

  /** Some rule forbids the action, or it would be one contact too many this week. */
  predicate Forbidden(r: Request, p: MerchantPolicy, contactsThisWeek: int) {
    || Block in r.regulatory || Block in r.merchant
    || ((r.kind.Message? || r.kind.VoiceCall? || r.kind.DiscountOffer?) && contactsThisWeek >= p.maxContactsPerWeek)
  }

  /** Some rule asks for a human, or the amount does and no human has said yes. */
  predicate NeedsHuman(r: Request, p: MerchantPolicy, humanApproved: bool) {
    || Hold in r.regulatory || Hold in r.merchant
    || (!r.kind.Suppress? && r.amount >= p.approvalThreshold && !humanApproved)
  }

  /** The engine blocks what is forbidden, holds what needs a human and is not, and allows the rest. */
  lemma EvaluateMeans(r: Request, p: MerchantPolicy, ctx: Context)
    ensures Evaluate(r, p, ctx) == if Forbidden(r, p, ctx.contactsThisWeek) then Block
                                   else if NeedsHuman(r, p, ctx.humanApproved) then Hold
                                   else Allow
    ensures IsFeasible(r, p, ctx) <==> !Forbidden(r, p, ctx.contactsThisWeek)
  {
    var results := r.regulatory + MerchantResults(r, p, ctx);
    var first, last := |r.regulatory|, |results| - 1;
    assert results[first] == ContactCap(r, p, ctx) && results[last] == ApprovalThreshold(r, p, ctx);
    assert forall v :: v in results <==>
             v in r.regulatory || v in r.merchant || v == results[first] || v == results[last];
  }

  /** The stricter of two packs wins: a merchant can add to the regulator's verdict, never lift it. */
  lemma StricterPackWins(a: seq<PolicyVerdict>, b: seq<PolicyVerdict>)
    ensures Reduce(a + b).Rank() == Max(Reduce(a).Rank(), Reduce(b).Rank())
  {
    assert forall v :: v in a + b <==> v in a || v in b;
  }

  /** An approval supplies authority and nothing else: what was blocked is blocked with it. */
  lemma ApprovalNeverLiftsABlock(r: Request, p: MerchantPolicy, n: int)
    ensures Evaluate(r, p, Context(n, true)).Block? <==> Evaluate(r, p, Context(n, false)).Block?
    ensures Evaluate(r, p, Context(n, true)).Rank() <= Evaluate(r, p, Context(n, false)).Rank()
    ensures Evaluate(r, p, Context(n, true)) != Evaluate(r, p, Context(n, false)) ==>
              r.amount >= p.approvalThreshold && Hold !in r.regulatory && Hold !in r.merchant
  {
    var without, with := MerchantResults(r, p, Context(n, false)), MerchantResults(r, p, Context(n, true));
    var i := |with| - 1;
    assert without[i] == ApprovalThreshold(r, p, Context(n, false)) && with[i] == Allow;
    assert without == with[i := without[i]];
    assert forall v :: v in with ==> v == Allow || v in without;
    assert forall v :: v in without ==> v == Hold || v in with;
    assert forall v :: v in r.merchant ==> v in with;
    StricterPackWins(r.regulatory, without);
    StricterPackWins(r.regulatory, with);
  }

  /** A contact that passes has room under the weekly cap. */
  lemma FeasibleContactHasRoom(r: Request, p: MerchantPolicy, ctx: Context)
    requires IsFeasible(r, p, ctx) && r.kind.ContactsCustomer()
    ensures ctx.contactsThisWeek < p.maxContactsPerWeek
  {
    var results := r.regulatory + MerchantResults(r, p, ctx);
    assert results[|r.regulatory|] == ContactCap(r, p, ctx);
  }
}
