/**
 The dispatcher: a decided action becomes an effect at most once.

 Any number of dispatchers and sweepers run the steps below in any order, with crashes at
 every point, locks that expire or never existed, and vendor calls whose replies are lost.
 The invariants are about every state such a run can reach.
*/
module Dispatch {
  import opened Candidates
  import opened Options
  import opened Vendor

  datatype ActionSpec = ActionSpec(meaning: Fingerprint, vendorKey: Option<Fingerprint>, mandateRail: bool) {
    /** The planner sends the fingerprint to the vendor; an approval sends no key at all. */
    predicate Keyed() {
      vendorKey == Some(meaning)
    }

    predicate WellFormed() {
      Keyed() || vendorKey.None?
    }
  }

  datatype Status = Pending | Dispatched | Failed | Rejected

  /** A row of the action ledger, unique per fingerprint. */
  datatype Row = Row(spec: ActionSpec, status: Status)

  /** Where a dispatcher or sweeper stands. */
  datatype Stage =
    | Holding(spec: ActionSpec)
    | Invoking(key: Fingerprint, spec: ActionSpec)
    | LinkReady(key: Fingerprint, spec: ActionSpec, link: Id)
    | Returned(key: Fingerprint, spec: ActionSpec)
    | Errored(key: Fingerprint, spec: ActionSpec, verdict: Status)
    | Releasing(key: Fingerprint)
  {
    /** Between the committed intent and the final transaction. */
    predicate Working() {
      Invoking? || LinkReady? || Returned? || Errored?
    }
  }

  datatype State = State(
    ledger: map<Fingerprint, Row>,
    locks: set<Fingerprint>,
    audit: seq<Fingerprint>,
    outbox: seq<Fingerprint>,
    vendor: Store,
    stages: map<nat, Stage>,
    swept: set<Fingerprint>)

  const INITIAL := State(map[], {}, [], [], EMPTY, map[], {})

  /** What becomes of one vendor call. */
  datatype Fate = Answered | ReplyLost | NeverArrived

  datatype Step =
    | Start(pid: nat, spec: ActionSpec, redisDown: bool)
    | RecordIntent(pid: nat)
    | CallVendor(pid: nat, fate: Fate)
    | Finish(pid: nat)
    | MarkError(pid: nat)
    | Release(pid: nat)
    | Crash(pid: nat)
    | ExpireLock(key: Fingerprint)
    | Sweep(pid: nat, key: Fingerprint)

  predicate IsMedium(c: Channel) {
    c.WhatsApp? || c.Sms? || c.Email?
  }

  /** The stage after a call that created or found a resource. */
  function After(f: Fingerprint, spec: ActionSpec, id: Option<Id>): Stage {
    if id.None? then Errored(f, spec, Failed)
    else if f.kind.Message? || f.kind.DiscountOffer? then LinkReady(f, spec, id.value)
    else Returned(f, spec)
  }

  /** The first vendor request of a tool, if it makes one. */
  function FirstCall(v: Store, f: Fingerprint, spec: ActionSpec): Reply {
    match f.kind
    case SilentRetry => Charge(v, f, spec.vendorKey)
    case ScheduleDebit => Charge(v, f, spec.vendorKey)
    case VoiceCall => Call(v, f, spec.vendorKey)
    case _ => CreateLink(v, f, spec.vendorKey)
  }

  /** Invoking a tool: at most one creating request, then at most one notification. */
  function Invoke(s: State, pid: nat, fate: Fate): State
    requires pid in s.stages && (s.stages[pid].Invoking? || s.stages[pid].LinkReady?)
  {
    match s.stages[pid]
    case Invoking(f, spec) =>
      if f.kind.Suppress? || f.kind.Escalate? then s.(stages := s.stages[pid := Returned(f, spec)])
      else if f.kind.SilentRetry? && !spec.mandateRail then
        s.(stages := s.stages[pid := Errored(f, spec, Rejected)])
      else if fate.NeverArrived? then s.(stages := s.stages[pid := Errored(f, spec, Failed)])
      else
        var reply := FirstCall(s.vendor, f, spec);
        s.(vendor := reply.store,
           stages := s.stages[pid := if fate.Answered? then After(f, spec, reply.id) else Errored(f, spec, Failed)])
    case LinkReady(f, spec, link) =>
      if !IsMedium(f.channel) then s.(stages := s.stages[pid := Errored(f, spec, Rejected)])
      else if fate.NeverArrived? then s.(stages := s.stages[pid := Errored(f, spec, Failed)])
      else
        var reply := NotifyBy(s.vendor, link, f.channel);
        s.(vendor := reply.store,
           stages := s.stages[pid := if fate.Answered? && reply.id.Some? then Returned(f, spec)
                                     else Errored(f, spec, Failed)])
  }

  /** A sweeper sends the row's key to the vendor, whatever the first attempt sent. */
  function Retried(spec: ActionSpec): ActionSpec {
    spec.(vendorKey := Some(spec.meaning))
  }

  /** One step of the system; a step that is not enabled changes nothing. */
  function Next(s: State, step: Step): State {
    match step
    case Start(pid, spec, redisDown) =>
      if pid in s.stages || !spec.WellFormed() then s
      else if redisDown then s.(stages := s.stages[pid := Holding(spec)])
      else if spec.meaning in s.locks then s
      else s.(locks := s.locks + {spec.meaning}, stages := s.stages[pid := Holding(spec)])
    case RecordIntent(pid) =>
      if pid !in s.stages || !s.stages[pid].Holding? then s
      else
        var spec := s.stages[pid].spec;
        if spec.meaning in s.ledger then s.(stages := s.stages[pid := Releasing(spec.meaning)])
        else s.(ledger := s.ledger[spec.meaning := Row(spec, Pending)],
                stages := s.stages[pid := Invoking(spec.meaning, spec)])
    case CallVendor(pid, fate) =>
      if pid in s.stages && (s.stages[pid].Invoking? || s.stages[pid].LinkReady?) then Invoke(s, pid, fate) else s
    case Finish(pid) =>
      if pid !in s.stages || !s.stages[pid].Returned? || s.stages[pid].key !in s.ledger then s
      else
        var f := s.stages[pid].key;
        s.(ledger := s.ledger[f := s.ledger[f].(status := Dispatched)], audit := s.audit + [f],
           outbox := s.outbox + [f], stages := s.stages[pid := Releasing(f)])
    case MarkError(pid) =>
      if pid !in s.stages || !s.stages[pid].Errored? || s.stages[pid].key !in s.ledger then s
      else
        var f := s.stages[pid].key;
        s.(ledger := s.ledger[f := s.ledger[f].(status := s.stages[pid].verdict)],
           stages := s.stages[pid := Releasing(f)])
    case Release(pid) =>
      if pid !in s.stages || !s.stages[pid].Releasing? then s
      else s.(locks := s.locks - {s.stages[pid].key}, stages := s.stages - {pid})
    case Crash(pid) => s.(stages := s.stages - {pid})
    case ExpireLock(key) => s.(locks := s.locks - {key})
    case Sweep(pid, key) =>
      if pid in s.stages || key !in s.ledger || !s.ledger[key].status.Pending? then s
      else s.(stages := s.stages[pid := Invoking(key, Retried(s.ledger[key].spec))], swept := s.swept + {key})
  }

  function Run(s: State, steps: seq<Step>): State
    decreases |steps|
  {
    if steps == [] then s else Run(Next(s, steps[0]), steps[1..])
  }

  /** What the environment can do to the protocol: lose a lock, forget a process, retry a row left pending. */
  lemma LossesHappen(s: State, pid: nat, f: Fingerprint)
    ensures Next(s, ExpireLock(f)) == s.(locks := s.locks - {f})
    ensures Next(s, Crash(pid)) == s.(stages := s.stages - {pid})
    ensures pid !in s.stages ==>
              (Next(s, Sweep(pid, f)) != s <==> f in s.ledger && s.ledger[f].status == Pending)
  {
    assert Next(s, Sweep(pid, f)) != s ==> pid in Next(s, Sweep(pid, f)).stages;
  }

  // The invariant

  predicate SendsMessage(f: Fingerprint) {
    f.kind.Message? || f.kind.DiscountOffer?
  }

  predicate MakesLink(f: Fingerprint) {
    SendsMessage(f) || f.kind.PaymentLink?
  }

  /** Tools that make something at the vendor. */
  predicate Reaches(f: Fingerprint, spec: ActionSpec) {
    !f.kind.Suppress? && !f.kind.Escalate? && (f.kind.SilentRetry? ==> spec.mandateRail)
  }

  predicate MakesDebit(f: Fingerprint) {
    f.kind.SilentRetry? || f.kind.ScheduleDebit?
  }

  predicate WorksOn(s: State, pid: nat, f: Fingerprint) {
    pid in s.stages && s.stages[pid].Working() && s.stages[pid].key == f
  }

  /** The spec of an attempt on a row: the row's own, or a sweeper's. */
  predicate Attempts(s: State, f: Fingerprint, spec: ActionSpec)
    requires f in s.ledger
  {
    spec == s.ledger[f].spec || (f in s.swept && spec == Retried(s.ledger[f].spec))
  }

  /** A stage past the intent belongs to a committed row that it attempts. */
  ghost predicate StageOk(s: State, pid: nat) {
    pid in s.stages ==>
      var stage := s.stages[pid];
      && (stage.Holding? ==> stage.spec.WellFormed())
      && (stage.Working() ==> stage.key in s.ledger && Attempts(s, stage.key, stage.spec))
      && (stage.LinkReady? ==> SendsMessage(stage.key) && stage.link in s.vendor.links
                               && s.vendor.links[stage.link].origin == stage.key)
      && (stage.Errored? ==> stage.verdict.Failed? || stage.verdict.Rejected?)
  }

  /** No effect, key or audit row without a committed intent; no dispatched mark without its audit row. */
  ghost predicate RowOk(s: State, f: Fingerprint) {
    && (f in s.ledger ==> s.ledger[f].spec.meaning == f && s.ledger[f].spec.WellFormed())
    && (f in s.ledger && s.ledger[f].status.Dispatched? ==> f in s.audit)
    && (f !in s.ledger ==> Created(s.vendor.effects, f) == 0 && Messaged(s.vendor.effects, f) == 0 && f !in s.audit)
    && (f in s.swept ==> f in s.ledger)
    && (f in s.vendor.idempotency ==> f in s.ledger && (s.ledger[f].spec.Keyed() || f in s.swept))
  }

  /** The link a keyed message action was sent through, if it has been sent. */
  predicate Sent(v: Store, f: Fingerprint) {
    && f in v.idempotency && v.idempotency[f] in v.links
    && f.channel in v.links[v.idempotency[f]].notified
  }

  /** A key on record names the resource that was made for it. */
  ghost predicate NamedOk(v: Store, f: Fingerprint) {
    f in v.idempotency ==>
      && v.idempotency[f] < v.next
      && (MakesLink(f) ==> v.idempotency[f] in v.links && v.links[v.idempotency[f]].origin == f)
      && (MakesDebit(f) ==> v.idempotency[f] in v.attempts)
      && (!MakesLink(f) ==> v.idempotency[f] !in v.links)
  }

  /** The vendor's tables say exactly what has happened on behalf of an action. */
  ghost predicate Tallied(v: Store, f: Fingerprint) {
    && Created(v.effects, f) == (if f in v.idempotency then 1 else 0)
    && Messaged(v.effects, f) == (if Sent(v, f) then 1 else 0)
  }

  /** For an action that carries its key, the tables are exact. */
  ghost predicate KeyedOk(s: State, f: Fingerprint) {
    NamedOk(s.vendor, f) && (f in s.ledger && s.ledger[f].spec.Keyed() ==> Tallied(s.vendor, f))
  }

  ghost predicate LinkOk(s: State, pid: nat) {
    pid in s.stages && s.stages[pid].LinkReady? && s.stages[pid].spec.Keyed() ==>
      s.stages[pid].key in s.vendor.idempotency && s.vendor.idempotency[s.stages[pid].key] == s.stages[pid].link
  }

  /** An action no sweeper has retried has one dispatcher at most, and has had one attempt at most. */
  ghost predicate FreshOk(s: State, f: Fingerprint) {
    f in s.ledger && f !in s.swept ==>
      && Created(s.vendor.effects, f) <= 1 && Messaged(s.vendor.effects, f) <= 1
      && multiset(s.audit)[f] == (if s.ledger[f].status.Dispatched? then 1 else 0)
      && (forall p, q :: WorksOn(s, p, f) && WorksOn(s, q, f) ==> p == q)
      && (forall p :: WorksOn(s, p, f) ==> s.ledger[f].status.Pending?)
      && (forall p :: WorksOn(s, p, f) && s.stages[p].Invoking? ==>
                        Created(s.vendor.effects, f) == 0 && Messaged(s.vendor.effects, f) == 0)
      && (forall p :: WorksOn(s, p, f) && s.stages[p].LinkReady? ==>
                        Messaged(s.vendor.effects, f) == 0 && !Told(s.vendor, s.stages[p].link, f.channel))
  }

  ghost predicate LinksIssued(v: Store) {
    forall id :: id in v.links ==> id < v.next
  }

  ghost predicate Inv(s: State) {
    && s.audit == s.outbox
    && LinksIssued(s.vendor)
    && (forall pid :: StageOk(s, pid) && LinkOk(s, pid))
    && (forall f :: RowOk(s, f) && KeyedOk(s, f) && FreshOk(s, f))
  }

  // Every step keeps the invariant

  /** Steps that move one dispatcher to a stage outside the vendor keep everything. */
  lemma QuietStep(s: State, t: State)
    requires Inv(s)
    requires t == s.(locks := t.locks, stages := t.stages)
    requires forall pid :: pid in t.stages && t.stages[pid].Working() ==>
                             pid in s.stages && s.stages[pid] == t.stages[pid]
    requires forall pid :: pid in t.stages && t.stages[pid].Holding? ==>
                             t.stages[pid].spec.WellFormed() || (pid in s.stages && s.stages[pid] == t.stages[pid])
    ensures Inv(t)
  {
    forall pid ensures StageOk(t, pid) && LinkOk(t, pid) {
      assert StageOk(s, pid) && LinkOk(s, pid);
    }
    forall f ensures RowOk(t, f) && KeyedOk(t, f) && FreshOk(t, f) {
      assert RowOk(s, f) && KeyedOk(s, f) && FreshOk(s, f);
      assert forall p :: WorksOn(t, p, f) ==> WorksOn(s, p, f) && s.stages[p] == t.stages[p];
    }
  }

  lemma RecordIntentKeeps(s: State, pid: nat)
    requires Inv(s) && pid in s.stages && s.stages[pid].Holding? && s.stages[pid].spec.meaning !in s.ledger
    ensures Inv(Next(s, RecordIntent(pid)))
  {
    var t := Next(s, RecordIntent(pid));
    var spec := s.stages[pid].spec;
    var g := spec.meaning;
    assert StageOk(s, pid) && RowOk(s, g);
    forall p ensures StageOk(t, p) && LinkOk(t, p) {
      assert StageOk(s, p) && LinkOk(s, p);
    }
    forall f ensures RowOk(t, f) && KeyedOk(t, f) && FreshOk(t, f) {
      assert RowOk(s, f) && KeyedOk(s, f) && FreshOk(s, f);
      if f == g {
        forall p | WorksOn(t, p, g) ensures p == pid {
          assert StageOk(s, p);
        }
      } else {
        assert forall p :: WorksOn(t, p, f) ==> WorksOn(s, p, f) && s.stages[p] == t.stages[p];
      }
    }
  }

  lemma FinishKeeps(s: State, pid: nat)
    requires Inv(s) && pid in s.stages && s.stages[pid].Returned?
    ensures Inv(Next(s, Finish(pid)))
  {
    var t := Next(s, Finish(pid));
    var g := s.stages[pid].key;
    assert StageOk(s, pid);
    forall p ensures StageOk(t, p) && LinkOk(t, p) {
      assert StageOk(s, p) && LinkOk(s, p);
    }
    forall f ensures RowOk(t, f) && KeyedOk(t, f) && FreshOk(t, f) {
      assert RowOk(s, f) && KeyedOk(s, f) && FreshOk(s, f);
      assert WorksOn(s, pid, g);
      assert forall p :: WorksOn(t, p, f) ==> WorksOn(s, p, f) && p != pid && s.stages[p] == t.stages[p];
    }
  }

  lemma MarkErrorKeeps(s: State, pid: nat)
    requires Inv(s) && pid in s.stages && s.stages[pid].Errored?
    ensures Inv(Next(s, MarkError(pid)))
  {
    var t := Next(s, MarkError(pid));
    var g := s.stages[pid].key;
    assert StageOk(s, pid);
    forall p ensures StageOk(t, p) && LinkOk(t, p) {
      assert StageOk(s, p) && LinkOk(s, p);
    }
    forall f ensures RowOk(t, f) && KeyedOk(t, f) && FreshOk(t, f) {
      assert RowOk(s, f) && KeyedOk(s, f) && FreshOk(s, f);
      assert WorksOn(s, pid, g);
      assert forall p :: WorksOn(t, p, f) ==> WorksOn(s, p, f) && p != pid && s.stages[p] == t.stages[p];
    }
  }

  lemma SweepKeeps(s: State, pid: nat, key: Fingerprint)
    requires Inv(s) && pid !in s.stages && key in s.ledger
    ensures Inv(Next(s, Sweep(pid, key)))
  {
    var t := Next(s, Sweep(pid, key));
    assert RowOk(s, key);
    forall p ensures StageOk(t, p) && LinkOk(t, p) {
      assert StageOk(s, p) && LinkOk(s, p);
    }
    forall f ensures RowOk(t, f) && KeyedOk(t, f) && FreshOk(t, f) {
      assert RowOk(s, f) && KeyedOk(s, f) && FreshOk(s, f);
      assert f != key ==> forall p :: WorksOn(t, p, f) ==> WorksOn(s, p, f) && s.stages[p] == t.stages[p];
    }
  }

  /** A tool that stops without reaching the vendor. */
  lemma StageMoveKeeps(s: State, pid: nat, stage: Stage)
    requires Inv(s) && pid in s.stages && s.stages[pid].Working()
    requires stage.Returned? || (stage.Errored? && (stage.verdict.Failed? || stage.verdict.Rejected?))
    requires stage.key == s.stages[pid].key && stage.spec == s.stages[pid].spec
    ensures Inv(s.(stages := s.stages[pid := stage]))
  {
    var t := s.(stages := s.stages[pid := stage]);
    forall p ensures StageOk(t, p) && LinkOk(t, p) {
      assert StageOk(s, p) && LinkOk(s, p);
      assert StageOk(s, pid);
    }
    forall f ensures RowOk(t, f) && KeyedOk(t, f) && FreshOk(t, f) {
      assert RowOk(s, f) && KeyedOk(s, f) && FreshOk(s, f);
      assert forall p :: WorksOn(t, p, f) ==> WorksOn(s, p, f);
    }
  }

  /** A creating request on behalf of f either finds f's resource or makes one for f. */
  ghost predicate Creates(v: Store, w: Store, f: Fingerprint, key: Option<Fingerprint>, id: Option<Id>) {
    if key.Some? && key.value in v.idempotency then
      && w == v && (MakesLink(f) && v.idempotency[key.value] in v.links ==> id == Some(v.idempotency[key.value]))
    else
      && id == Some(v.next)
      && w.next == v.next + 1
      && w.idempotency == v.Remember(key, v.next)
      && w.links == (if MakesLink(f) then v.links[v.next := Link(f, {})] else v.links)
      && w.attempts == (if MakesDebit(f) then v.attempts + {v.next} else v.attempts)
      && exists e: Effect :: !e.Notified? && e.origin == f && w.effects == v.effects + [e]
  }

  lemma FirstCallCreates(v: Store, f: Fingerprint, spec: ActionSpec)
    requires !f.kind.Suppress? && !f.kind.Escalate?
    ensures Creates(v, FirstCall(v, f, spec).store, f, spec.vendorKey, FirstCall(v, f, spec).id)
  {
    if MakesDebit(f) {
      assert !Charged(f, spec.vendorKey).Notified?;
    } else if f.kind.VoiceCall? {
      assert !Called(f, spec.vendorKey).Notified?;
    } else {
      assert !LinkCreated(f, spec.vendorKey).Notified?;
    }
  }

  /** What the creating request leaves for the dispatcher that made it. */
  ghost predicate AfterCreate(stage: Stage, f: Fingerprint, spec: ActionSpec, id: Option<Id>) {
    && stage.Working() && stage.key == f && stage.spec == spec && !stage.Invoking?
    && (stage.LinkReady? ==> SendsMessage(f) && id == Some(stage.link))
    && (stage.Errored? ==> stage.verdict.Failed?)
  }

  lemma CreateEffects(v: Store, w: Store, f: Fingerprint, key: Option<Fingerprint>, id: Option<Id>, g: Fingerprint)
    requires Creates(v, w, f, key, id)
    ensures Messaged(w.effects, g) == Messaged(v.effects, g)
    ensures Created(w.effects, g) == Created(v.effects, g) +
              if g == f && !(key.Some? && key.value in v.idempotency) then 1 else 0
  {
    if !(key.Some? && key.value in v.idempotency) {
      var e: Effect :| !e.Notified? && e.origin == f && w.effects == v.effects + [e];
      EffectAppend(v.effects, e, g);
    }
  }

  lemma CreateKeepsNames(v: Store, w: Store, g: Fingerprint, key: Option<Fingerprint>, id: Option<Id>, f: Fingerprint)
    requires LinksIssued(v) && NamedOk(v, f) && Creates(v, w, g, key, id) && (key == None || key == Some(g))
    ensures NamedOk(w, f)
  {
    if !(key.Some? && key.value in v.idempotency) {
      assert f in w.idempotency ==> f in v.idempotency || (key == Some(f) && w.idempotency[f] == v.next);
    }
  }

  lemma CreateKeepsTally(v: Store, w: Store, g: Fingerprint, key: Option<Fingerprint>, id: Option<Id>, f: Fingerprint)
    requires LinksIssued(v) && NamedOk(v, f) && Tallied(v, f) && Creates(v, w, g, key, id)
    requires key == Some(g) || (key == None && g != f)
    ensures Tallied(w, f)
  {
    CreateEffects(v, w, g, key, id, f);
    if !(key.Some? && key.value in v.idempotency) {
      assert Sent(w, f) <==> Sent(v, f);
    }
  }

  lemma CreateKeepsKeyed(s: State, pid: nat, w: Store, id: Option<Id>, stage: Stage, f: Fingerprint)
    requires LinksIssued(s.vendor) && pid in s.stages && s.stages[pid].Invoking? && StageOk(s, pid)
    requires RowOk(s, s.stages[pid].key) && RowOk(s, f) && KeyedOk(s, f)
    requires var g, spec := s.stages[pid].key, s.stages[pid].spec;
             Creates(s.vendor, w, g, spec.vendorKey, id) && AfterCreate(stage, g, spec, id)
    ensures var t := s.(vendor := w, stages := s.stages[pid := stage]);
            RowOk(t, f) && KeyedOk(t, f)
  {
    var g, key := s.stages[pid].key, s.stages[pid].spec.vendorKey;
    CreateEffects(s.vendor, w, g, key, id, f);
    CreateKeepsNames(s.vendor, w, g, key, id, f);
    if f in s.ledger && s.ledger[f].spec.Keyed() {
      CreateKeepsTally(s.vendor, w, g, key, id, f);
    }
  }

  /** A vendor call for one action, seen from another: same effects, same workers, same links told. */
  lemma OthersStayFresh(s: State, pid: nat, w: Store, stage: Stage, f: Fingerprint)
    requires pid in s.stages && s.stages[pid].Working() && stage.Working() && stage.key == s.stages[pid].key != f
    requires FreshOk(s, f) && forall p :: StageOk(s, p)
    requires Created(w.effects, f) == Created(s.vendor.effects, f)
    requires Messaged(w.effects, f) == Messaged(s.vendor.effects, f)
    requires forall link, m :: link in s.vendor.links && s.vendor.links[link].origin == f ==>
                                 (Told(w, link, m) <==> Told(s.vendor, link, m))
    ensures FreshOk(s.(vendor := w, stages := s.stages[pid := stage]), f)
  {
    var t := s.(vendor := w, stages := s.stages[pid := stage]);
    forall p | WorksOn(t, p, f)
      ensures WorksOn(s, p, f) && t.stages[p] == s.stages[p]
    {
      assert p != pid;
    }
    forall p | f in s.ledger && f !in s.swept && WorksOn(t, p, f) && t.stages[p].LinkReady?
      ensures Messaged(w.effects, f) == 0 && !Told(w, t.stages[p].link, f.channel)
    {
      assert StageOk(s, p) && WorksOn(s, p, f);
    }
  }

  /** A vendor call leaves its own action fresh if what it adds is the first of its kind. */
  lemma OwnStaysFresh(s: State, pid: nat, w: Store, stage: Stage)
    requires pid in s.stages && s.stages[pid].Working() && stage.Working() && stage.key == s.stages[pid].key
    requires FreshOk(s, stage.key) && !stage.Invoking? && stage.key in s.ledger
    requires stage.key !in s.swept ==>
               && Created(w.effects, stage.key) <= 1 && Messaged(w.effects, stage.key) <= 1
               && (stage.LinkReady? ==>
                     Messaged(w.effects, stage.key) == 0 && !Told(w, stage.link, stage.key.channel))
    ensures FreshOk(s.(vendor := w, stages := s.stages[pid := stage]), stage.key)
  {
    var t := s.(vendor := w, stages := s.stages[pid := stage]);
    assert WorksOn(s, pid, stage.key);
    forall p | WorksOn(t, p, stage.key) && stage.key !in s.swept ensures p == pid {
      assert p != pid ==> WorksOn(s, p, stage.key);
    }
  }

  /** A creating request for an action with nothing on record makes one resource, and nobody is told of its link. */
  lemma CreateIsFirst(v: Store, w: Store, g: Fingerprint, key: Option<Fingerprint>, id: Option<Id>)
    requires LinksIssued(v) && v.Resolve(key).None? && Created(v.effects, g) == 0 && Messaged(v.effects, g) == 0
    requires Creates(v, w, g, key, id)
    ensures Created(w.effects, g) == 1 && Messaged(w.effects, g) == 0
    ensures id.Some? && !Told(w, id.value, g.channel)
  {
    CreateEffects(v, w, g, key, id, g);
  }

  lemma CreateKeepsFresh(s: State, pid: nat, w: Store, id: Option<Id>, stage: Stage, f: Fingerprint)
    requires LinksIssued(s.vendor) && pid in s.stages && s.stages[pid].Invoking? && StageOk(s, pid)
    requires RowOk(s, s.stages[pid].key) && KeyedOk(s, s.stages[pid].key) && FreshOk(s, f)
    requires var g, spec := s.stages[pid].key, s.stages[pid].spec;
             Creates(s.vendor, w, g, spec.vendorKey, id) && AfterCreate(stage, g, spec, id)
    requires forall p :: StageOk(s, p)
    ensures var t := s.(vendor := w, stages := s.stages[pid := stage]);
            FreshOk(t, f)
  {
    var g, spec := s.stages[pid].key, s.stages[pid].spec;
    CreateEffects(s.vendor, w, g, spec.vendorKey, id, f);
    if f == g {
      if g !in s.swept {
        assert WorksOn(s, pid, g);
        CreateIsFirst(s.vendor, w, g, spec.vendorKey, id);
      }
      OwnStaysFresh(s, pid, w, stage);
    } else {
      OthersStayFresh(s, pid, w, stage, f);
    }
  }

  lemma CreateKeeps(s: State, pid: nat, w: Store, id: Option<Id>, stage: Stage)
    requires Inv(s) && pid in s.stages && s.stages[pid].Invoking?
    requires var g, spec := s.stages[pid].key, s.stages[pid].spec;
             Creates(s.vendor, w, g, spec.vendorKey, id) && AfterCreate(stage, g, spec, id)
    ensures Inv(s.(vendor := w, stages := s.stages[pid := stage]))
  {
    var t := s.(vendor := w, stages := s.stages[pid := stage]);
    forall p ensures StageOk(t, p) && LinkOk(t, p) {
      assert StageOk(s, p) && LinkOk(s, p) && StageOk(s, pid);
      assert RowOk(s, s.stages[pid].key) && KeyedOk(s, s.stages[pid].key);
    }
    assert StageOk(s, pid) && RowOk(s, s.stages[pid].key);
    forall f ensures RowOk(t, f) && KeyedOk(t, f) && FreshOk(t, f) {
      assert RowOk(s, f) && KeyedOk(s, f) && FreshOk(s, f);
      CreateKeepsKeyed(s, pid, w, id, stage, f);
      CreateKeepsFresh(s, pid, w, id, stage, f);
    }
  }

  lemma NotifyKeepsKeyed(s: State, pid: nat, stage: Stage, f: Fingerprint)
    requires pid in s.stages && s.stages[pid].LinkReady? && StageOk(s, pid) && LinkOk(s, pid)
    requires RowOk(s, s.stages[pid].key) && RowOk(s, f) && KeyedOk(s, f)
    requires stage.Returned? || (stage.Errored? && stage.verdict.Failed?)
    requires stage.key == s.stages[pid].key && stage.spec == s.stages[pid].spec
    ensures var w := NotifyBy(s.vendor, s.stages[pid].link, s.stages[pid].key.channel).store;
            var t := s.(vendor := w, stages := s.stages[pid := stage]);
            RowOk(t, f) && KeyedOk(t, f)
  {
    var g, link := s.stages[pid].key, s.stages[pid].link;
    EffectAppend(s.vendor.effects, Notified(g, link, g.channel), f);
  }

  lemma NotifyKeepsFresh(s: State, pid: nat, stage: Stage, f: Fingerprint)
    requires pid in s.stages && s.stages[pid].LinkReady? && StageOk(s, pid)
    requires FreshOk(s, f) && forall p :: StageOk(s, p)
    requires stage.Returned? || (stage.Errored? && stage.verdict.Failed?)
    requires stage.key == s.stages[pid].key && stage.spec == s.stages[pid].spec
    ensures var w := NotifyBy(s.vendor, s.stages[pid].link, s.stages[pid].key.channel).store;
            var t := s.(vendor := w, stages := s.stages[pid := stage]);
            FreshOk(t, f)
  {
    var g, link := s.stages[pid].key, s.stages[pid].link;
    var w := NotifyBy(s.vendor, link, g.channel).store;
    EffectAppend(s.vendor.effects, Notified(g, link, g.channel), f);
    if f == g {
      assert WorksOn(s, pid, g);
      OwnStaysFresh(s, pid, w, stage);
    } else {
      OthersStayFresh(s, pid, w, stage, f);
    }
  }

  lemma NotifyKeeps(s: State, pid: nat, stage: Stage)
    requires Inv(s) && pid in s.stages && s.stages[pid].LinkReady?
    requires stage.Returned? || (stage.Errored? && stage.verdict.Failed?)
    requires stage.key == s.stages[pid].key && stage.spec == s.stages[pid].spec
    ensures var w := NotifyBy(s.vendor, s.stages[pid].link, s.stages[pid].key.channel).store;
            Inv(s.(vendor := w, stages := s.stages[pid := stage]))
  {
    var w := NotifyBy(s.vendor, s.stages[pid].link, s.stages[pid].key.channel).store;
    var t := s.(vendor := w, stages := s.stages[pid := stage]);
    forall p ensures StageOk(t, p) && LinkOk(t, p) {
      assert StageOk(s, p) && LinkOk(s, p) && StageOk(s, pid);
    }
    assert StageOk(s, pid) && LinkOk(s, pid) && RowOk(s, s.stages[pid].key);
    forall f ensures RowOk(t, f) && KeyedOk(t, f) && FreshOk(t, f) {
      assert RowOk(s, f) && KeyedOk(s, f) && FreshOk(s, f);
      NotifyKeepsKeyed(s, pid, stage, f);
      NotifyKeepsFresh(s, pid, stage, f);
    }
  }

  lemma InvokeKeeps(s: State, pid: nat, fate: Fate)
    requires Inv(s) && pid in s.stages && (s.stages[pid].Invoking? || s.stages[pid].LinkReady?)
    ensures Inv(Invoke(s, pid, fate))
  {
    var t := Invoke(s, pid, fate);
    var stage := s.stages[pid];
    if t.vendor == s.vendor && !t.stages[pid].LinkReady? {
      StageMoveKeeps(s, pid, t.stages[pid]);
      assert t == s.(stages := s.stages[pid := t.stages[pid]]);
    } else if stage.Invoking? {
      FirstCallCreates(s.vendor, stage.key, stage.spec);
      var reply := FirstCall(s.vendor, stage.key, stage.spec);
      CreateKeeps(s, pid, reply.store, reply.id, t.stages[pid]);
    } else {
      NotifyKeeps(s, pid, t.stages[pid]);
    }
  }

  lemma StepKeeps(s: State, step: Step)
    requires Inv(s)
    ensures Inv(Next(s, step))
  {
    var t := Next(s, step);
    if t != s {
      match step
      case RecordIntent(pid) =>
        assert StageOk(s, pid);
        if s.stages[pid].spec.meaning in s.ledger {
          QuietStep(s, t);
        } else {
          RecordIntentKeeps(s, pid);
        }
      case CallVendor(pid, fate) => InvokeKeeps(s, pid, fate);
      case Finish(pid) => FinishKeeps(s, pid);
      case MarkError(pid) => MarkErrorKeeps(s, pid);
      case Sweep(pid, key) => SweepKeeps(s, pid, key);
      case _ =>
        QuietStep(s, t);
    }
  }

  lemma {:induction false} RunKeeps(s: State, steps: seq<Step>)
    requires Inv(s)
    ensures Inv(Run(s, steps))
    decreases |steps|
  {
    if steps != [] {
      StepKeeps(s, steps[0]);
      RunKeeps(Next(s, steps[0]), steps[1..]);
    }
  }

  lemma InitiallyInv()
    ensures Inv(INITIAL)
  {
  }

  // A dispatched mark means the effect happened

  /** The resource exists, and if the action is a message it was sent. */
  ghost predicate Effected(v: Store, f: Fingerprint) {
    Created(v.effects, f) > 0 && (SendsMessage(f) ==> Messaged(v.effects, f) > 0)
  }

  /** Every key, link and notification on record stands for something that happened. */
  ghost predicate RecordsAreTrue(v: Store) {
    && (forall k :: k in v.idempotency ==> Created(v.effects, k) > 0)
    && (forall link :: link in v.links ==> Created(v.effects, v.links[link].origin) > 0)
    && (forall link, m :: Told(v, link, m) ==> Messaged(v.effects, v.links[link].origin) > 0)
  }

  ghost predicate ReturnedOk(s: State, pid: nat) {
    pid in s.stages && s.stages[pid].Returned? && Reaches(s.stages[pid].key, s.stages[pid].spec) ==>
      Effected(s.vendor, s.stages[pid].key)
  }

  ghost predicate MarkedOk(s: State, f: Fingerprint) {
    f in s.ledger && s.ledger[f].status.Dispatched? && Reaches(f, s.ledger[f].spec) ==> Effected(s.vendor, f)
  }

  ghost predicate Accomplished(s: State) {
    && RecordsAreTrue(s.vendor)
    && (forall pid :: ReturnedOk(s, pid))
    && (forall f :: MarkedOk(s, f))
  }

  /** Nothing that happened is undone. */
  ghost predicate Grown(v: Store, w: Store) {
    forall f :: Created(v.effects, f) <= Created(w.effects, f) && Messaged(v.effects, f) <= Messaged(w.effects, f)
  }

  lemma CreatingKeepsRecords(v: Store, w: Store, f: Fingerprint, key: Option<Fingerprint>, id: Option<Id>)
    requires RecordsAreTrue(v) && Creates(v, w, f, key, id) && (key == Some(f) || key == None)
    requires forall link :: link in v.links ==> link < v.next
    ensures RecordsAreTrue(w) && Grown(v, w) && Created(w.effects, f) > 0
  {
    forall g
      ensures Created(v.effects, g) <= Created(w.effects, g) && Messaged(v.effects, g) <= Messaged(w.effects, g)
    {
      CreateEffects(v, w, f, key, id, g);
    }
    CreateEffects(v, w, f, key, id, f);
    forall link, m | Told(w, link, m) ensures Messaged(w.effects, w.links[link].origin) > 0 {
      assert Told(v, link, m);
    }
  }

  lemma NotifyingKeepsRecords(v: Store, link: Id, medium: Channel)
    requires RecordsAreTrue(v) && link in v.links
    ensures var w := NotifyBy(v, link, medium).store;
            RecordsAreTrue(w) && Grown(v, w) && Messaged(w.effects, v.links[link].origin) > 0
  {
    var w := NotifyBy(v, link, medium).store;
    var f := v.links[link].origin;
    if medium in v.links[link].notified {
      assert Told(v, link, medium);
    } else {
      forall g
        ensures Created(w.effects, g) == Created(v.effects, g) && Messaged(v.effects, g) <= Messaged(w.effects, g)
      {
        EffectAppend(v.effects, Notified(f, link, medium), g);
      }
      EffectAppend(v.effects, Notified(f, link, medium), f);
      forall other, m | Told(w, other, m) ensures Messaged(w.effects, w.links[other].origin) > 0 {
        assert other == link || Told(v, other, m);
      }
    }
  }

  /** A vendor call only has to account for the stage of the process that made it. */
  lemma CallAccomplishes(s: State, t: State, pid: nat)
    requires Accomplished(s) && RecordsAreTrue(t.vendor) && Grown(s.vendor, t.vendor) && ReturnedOk(t, pid)
    requires pid in t.stages && t == s.(vendor := t.vendor, stages := s.stages[pid := t.stages[pid]])
    ensures Accomplished(t)
  {
    forall p ensures ReturnedOk(t, p) {
      assert ReturnedOk(s, p);
    }
    forall f ensures MarkedOk(t, f) {
      assert MarkedOk(s, f);
    }
  }

  /** A first call that reaches the vendor leaves the resource, whatever becomes of the reply. */
  lemma FirstAccomplishes(s: State, pid: nat, stage: Stage)
    requires Inv(s) && Accomplished(s) && pid in s.stages && s.stages[pid].Invoking?
    requires var f, spec := s.stages[pid].key, s.stages[pid].spec;
             && Reaches(f, spec) && stage.Working() && stage.key == f && stage.spec == spec
             && (stage.Returned? ==> !SendsMessage(f))
    ensures var w := FirstCall(s.vendor, s.stages[pid].key, s.stages[pid].spec).store;
            Accomplished(s.(vendor := w, stages := s.stages[pid := stage]))
  {
    var f, spec := s.stages[pid].key, s.stages[pid].spec;
    assert StageOk(s, pid) && RowOk(s, f);
    FirstCallCreates(s.vendor, f, spec);
    var reply := FirstCall(s.vendor, f, spec);
    CreatingKeepsRecords(s.vendor, reply.store, f, spec.vendorKey, reply.id);
    CallAccomplishes(s, s.(vendor := reply.store, stages := s.stages[pid := stage]), pid);
  }

  lemma SecondAccomplishes(s: State, pid: nat, stage: Stage)
    requires Inv(s) && Accomplished(s) && pid in s.stages && s.stages[pid].LinkReady?
    requires stage.Working() && stage.key == s.stages[pid].key && stage.spec == s.stages[pid].spec
    ensures var w := NotifyBy(s.vendor, s.stages[pid].link, s.stages[pid].key.channel).store;
            Accomplished(s.(vendor := w, stages := s.stages[pid := stage]))
  {
    var link, medium := s.stages[pid].link, s.stages[pid].key.channel;
    assert StageOk(s, pid);
    NotifyingKeepsRecords(s.vendor, link, medium);
    var w := NotifyBy(s.vendor, link, medium).store;
    CallAccomplishes(s, s.(vendor := w, stages := s.stages[pid := stage]), pid);
  }

  lemma InvokeAccomplishes(s: State, pid: nat, fate: Fate)
    requires Inv(s) && Accomplished(s) && pid in s.stages && (s.stages[pid].Invoking? || s.stages[pid].LinkReady?)
    ensures Accomplished(Invoke(s, pid, fate))
  {
    var t := Invoke(s, pid, fate);
    var f, spec := s.stages[pid].key, s.stages[pid].spec;
    if t.stages[pid].Errored? && t.vendor == s.vendor {
      CallAccomplishes(s, t, pid);
    } else if s.stages[pid].LinkReady? {
      SecondAccomplishes(s, pid, t.stages[pid]);
    } else if Reaches(f, spec) {
      FirstAccomplishes(s, pid, t.stages[pid]);
    } else {
      CallAccomplishes(s, t, pid);
    }
  }

  /** Steps that neither call the vendor nor mark a row dispatched. */
  lemma QuietAccomplishes(s: State, t: State)
    requires Accomplished(s) && t.vendor == s.vendor
    requires forall pid :: pid in t.stages && t.stages[pid].Returned? ==>
                             pid in s.stages && s.stages[pid] == t.stages[pid]
    requires forall f :: f in t.ledger && t.ledger[f].status.Dispatched? ==>
                           f in s.ledger && s.ledger[f] == t.ledger[f]
    ensures Accomplished(t)
  {
    forall pid ensures ReturnedOk(t, pid) {
      assert ReturnedOk(s, pid);
    }
    forall f ensures MarkedOk(t, f) {
      assert MarkedOk(s, f);
    }
  }

  lemma FinishAccomplishes(s: State, pid: nat)
    requires Inv(s) && Accomplished(s) && pid in s.stages && s.stages[pid].Returned?
    ensures Accomplished(Next(s, Finish(pid)))
  {
    var t := Next(s, Finish(pid));
    assert StageOk(s, pid) && ReturnedOk(s, pid);
    forall p ensures ReturnedOk(t, p) {
      assert ReturnedOk(s, p);
    }
    forall f ensures MarkedOk(t, f) {
      assert MarkedOk(s, f);
    }
  }

  lemma StepAccomplishes(s: State, step: Step)
    requires Inv(s) && Accomplished(s)
    ensures Accomplished(Next(s, step))
  {
    var t := Next(s, step);
    if t != s {
      match step
      case CallVendor(pid, fate) => InvokeAccomplishes(s, pid, fate);
      case Finish(pid) => FinishAccomplishes(s, pid);
      case MarkError(pid) =>
        assert StageOk(s, pid);
        QuietAccomplishes(s, t);
      case _ =>
        QuietAccomplishes(s, t);
    }
  }

  lemma {:induction false} RunAccomplishes(s: State, steps: seq<Step>)
    requires Inv(s) && Accomplished(s)
    ensures Accomplished(Run(s, steps))
    decreases |steps|
  {
    if steps != [] {
      StepKeeps(s, steps[0]);
      StepAccomplishes(s, steps[0]);
      RunAccomplishes(Next(s, steps[0]), steps[1..]);
    }
  }

  // What every run guarantees

  /**
   In every reachable state an action that carries its key, and any action no sweeper has
   retried, has created at most one resource and sent at most one message; nothing has
   happened without a committed intent.
  */
  lemma EffectsHappenAtMostOnce(steps: seq<Step>, f: Fingerprint)
    ensures var s := Run(INITIAL, steps);
            && (f !in s.ledger ==> Created(s.vendor.effects, f) == 0 && Messaged(s.vendor.effects, f) == 0)
            && (f in s.ledger && (s.ledger[f].spec.Keyed() || f !in s.swept) ==>
                  Created(s.vendor.effects, f) <= 1 && Messaged(s.vendor.effects, f) <= 1)
  {
    InitiallyInv();
    RunKeeps(INITIAL, steps);
    var s := Run(INITIAL, steps);
    assert RowOk(s, f) && KeyedOk(s, f) && FreshOk(s, f);
  }

  // Retries without end

  /** Resources made for an action beyond the one its key is on record for. */
  function Unkeyed(v: Store, f: Fingerprint): int {
    Created(v.effects, f) - if f in v.idempotency then 1 else 0
  }

  /** An attempt about to call the vendor without a key. */
  predicate BareAt(s: State, pid: nat, f: Fingerprint) {
    pid in s.stages && s.stages[pid].Invoking? && s.stages[pid].key == f && s.stages[pid].spec.vendorKey.None?
  }

  /** One attempt at most calls without a key, and it has not called yet: a sweeper always sends one. */
  ghost predicate BareOnce(s: State, f: Fingerprint) {
    && 0 <= Unkeyed(s.vendor, f) <= 1
    && (forall p :: BareAt(s, p, f) ==> Unkeyed(s.vendor, f) == 0)
    && (forall p, q :: BareAt(s, p, f) && BareAt(s, q, f) ==> p == q)
  }

  lemma CreateCounts(v: Store, w: Store, g: Fingerprint, key: Option<Fingerprint>, id: Option<Id>, f: Fingerprint)
    requires Creates(v, w, g, key, id) && (key.None? || key == Some(g))
    ensures Unkeyed(w, f) == Unkeyed(v, f) + if f == g && key.None? then 1 else 0
  {
    CreateEffects(v, w, g, key, id, f);
  }

  lemma InvokeUses(s: State, pid: nat, fate: Fate)
    requires pid in s.stages && s.stages[pid].Invoking?
    ensures var t := Invoke(s, pid, fate);
            && t.stages == s.stages[pid := t.stages[pid]] && !t.stages[pid].Invoking?
            && (t.vendor != s.vendor ==>
                  var g, spec := s.stages[pid].key, s.stages[pid].spec;
                  Creates(s.vendor, t.vendor, g, spec.vendorKey, FirstCall(s.vendor, g, spec).id))
  {
    var g, spec := s.stages[pid].key, s.stages[pid].spec;
    if Reaches(g, spec) {
      FirstCallCreates(s.vendor, g, spec);
    }
  }

  lemma FirstCallKeepsBareOnce(s: State, pid: nat, fate: Fate, f: Fingerprint)
    requires StageOk(s, pid) && BareOnce(s, f) && pid in s.stages && s.stages[pid].Invoking?
    requires RowOk(s, s.stages[pid].key)
    ensures BareOnce(Invoke(s, pid, fate), f)
  {
    var g, spec, t := s.stages[pid].key, s.stages[pid].spec, Invoke(s, pid, fate);
    InvokeUses(s, pid, fate);
    assert forall p :: BareAt(t, p, f) ==> BareAt(s, p, f) && p != pid;
    if t.vendor != s.vendor {
      CreateCounts(s.vendor, t.vendor, g, spec.vendorKey, FirstCall(s.vendor, g, spec).id, f);
      assert f == g && spec.vendorKey.None? ==> BareAt(s, pid, f);
    }
  }

  lemma SecondCallKeepsBareOnce(s: State, pid: nat, fate: Fate, f: Fingerprint)
    requires BareOnce(s, f) && pid in s.stages && s.stages[pid].LinkReady?
    ensures BareOnce(Invoke(s, pid, fate), f)
  {
    var t, link := Invoke(s, pid, fate), s.stages[pid].link;
    assert forall p :: BareAt(t, p, f) ==> BareAt(s, p, f);
    if t.vendor != s.vendor {
      EffectAppend(s.vendor.effects, Notified(s.vendor.links[link].origin, link, s.stages[pid].key.channel), f);
    }
  }

  lemma StepKeepsBareOnce(s: State, step: Step, f: Fingerprint)
    requires Inv(s) && BareOnce(s, f)
    ensures BareOnce(Next(s, step), f)
  {
    var t := Next(s, step);
    if t != s {
      match step
      case CallVendor(pid, fate) =>
        if s.stages[pid].Invoking? {
          assert StageOk(s, pid) && RowOk(s, s.stages[pid].key);
          FirstCallKeepsBareOnce(s, pid, fate, f);
        } else {
          SecondCallKeepsBareOnce(s, pid, fate, f);
        }
      case RecordIntent(pid) =>
        assert RowOk(s, f);
        forall p | BareAt(t, p, f) && f !in s.ledger ensures p == pid {
          assert StageOk(s, p);
        }
        assert f in s.ledger ==> forall p :: BareAt(t, p, f) ==> BareAt(s, p, f);
      case _ =>
        assert forall p :: BareAt(t, p, f) ==> BareAt(s, p, f);
    }
  }

  lemma {:induction false} RunKeepsBareOnce(s: State, steps: seq<Step>, f: Fingerprint)
    requires Inv(s) && BareOnce(s, f)
    ensures BareOnce(Run(s, steps), f)
    decreases |steps|
  {
    if steps != [] {
      StepKeeps(s, steps[0]);
      StepKeepsBareOnce(s, steps[0], f);
      RunKeepsBareOnce(Next(s, steps[0]), steps[1..], f);
    }
  }

  function Links(v: Store, f: Fingerprint): set<Id> {
    set link | link in v.links && v.links[link].origin == f
  }

  function ToldLinks(v: Store, f: Fingerprint): set<Id> {
    set link | link in Links(v, f) && Told(v, link, f.channel)
  }

  /** Every link of an action was paid for by a request, and every message went over a link of its own. */
  ghost predicate Booked(v: Store, f: Fingerprint) {
    |Links(v, f)| <= Created(v.effects, f) && Messaged(v.effects, f) <= |ToldLinks(v, f)|
  }

  lemma LinksAfterCreate(v: Store, w: Store, g: Fingerprint, f: Fingerprint)
    requires LinksIssued(v) && w.links == if MakesLink(g) then v.links[v.next := Link(g, {})] else v.links
    ensures Links(w, f) == Links(v, f) + if f == g && MakesLink(g) then {v.next} else {}
    ensures v.next !in Links(v, f) && ToldLinks(w, f) == ToldLinks(v, f)
  {
  }

  lemma LinksAfterNotify(v: Store, link: Id, f: Fingerprint)
    requires link in v.links
    ensures var g := v.links[link].origin;
            var w := NotifyBy(v, link, g.channel).store;
            && Links(w, f) == Links(v, f)
            && ToldLinks(w, f) == ToldLinks(v, f) + if f == g then {link} else {}
  {
  }

  lemma CreateKeepsBooked(v: Store, w: Store, g: Fingerprint, key: Option<Fingerprint>, id: Option<Id>, f: Fingerprint)
    requires LinksIssued(v) && Booked(v, f) && Creates(v, w, g, key, id)
    ensures Booked(w, f)
  {
    CreateEffects(v, w, g, key, id, f);
    if w != v {
      LinksAfterCreate(v, w, g, f);
    }
  }

  lemma NotifyKeepsBooked(v: Store, link: Id, f: Fingerprint)
    requires Booked(v, f)
    ensures link in v.links ==> Booked(NotifyBy(v, link, v.links[link].origin.channel).store, f)
  {
    if link in v.links {
      var g := v.links[link].origin;
      EffectAppend(v.effects, Notified(g, link, g.channel), f);
      LinksAfterNotify(v, link, f);
    }
  }

  lemma InvokeKeepsBooked(s: State, pid: nat, fate: Fate, f: Fingerprint)
    requires Inv(s) && Booked(s.vendor, f) && pid in s.stages && (s.stages[pid].Invoking? || s.stages[pid].LinkReady?)
    ensures Booked(Invoke(s, pid, fate).vendor, f)
  {
    assert StageOk(s, pid);
    match s.stages[pid]
    case Invoking(g, spec) =>
      if !g.kind.Suppress? && !g.kind.Escalate? {
        FirstCallCreates(s.vendor, g, spec);
        var reply := FirstCall(s.vendor, g, spec);
        CreateKeepsBooked(s.vendor, reply.store, g, spec.vendorKey, reply.id, f);
      }
    case LinkReady(g, spec, link) =>
      NotifyKeepsBooked(s.vendor, link, f);
  }

  lemma {:induction false} RunKeepsBooked(s: State, steps: seq<Step>, f: Fingerprint)
    requires Inv(s) && Booked(s.vendor, f)
    ensures Booked(Run(s, steps).vendor, f)
    decreases |steps|
  {
    if steps != [] {
      StepKeeps(s, steps[0]);
      if steps[0].CallVendor? && Next(s, steps[0]) != s {
        InvokeKeepsBooked(s, steps[0].pid, steps[0].fate, f);
      }
      RunKeepsBooked(Next(s, steps[0]), steps[1..], f);
    }
  }

  lemma SubsetIsNoLarger<T>(a: set<T>, b: set<T>)
    requires a <= b
    ensures |a| <= |b|
  {
    assert b == a + (b - a);
  }

  /**
   However often an action is swept, and whatever was sent the first time, it makes two
   resources at most, and one until its key is on record: from then on the vendor recognises
   the sweeper. A customer is never told more often than there are resources.
  */
  lemma EffectsHappenAtMostTwice(steps: seq<Step>, f: Fingerprint)
    ensures var v := Run(INITIAL, steps).vendor;
            Messaged(v.effects, f) <= Created(v.effects, f) <= if f in v.idempotency then 2 else 1
  {
    InitiallyInv();
    RunKeepsBareOnce(INITIAL, steps, f);
    assert Links(EMPTY, f) == {} == ToldLinks(EMPTY, f);
    RunKeepsBooked(INITIAL, steps, f);
    var v := Run(INITIAL, steps).vendor;
    SubsetIsNoLarger(ToldLinks(v, f), Links(v, f));
  }

  /**
   In every reachable state, a row marked dispatched has had its effect: the resource exists
   and the message, if it is one, was sent. With the bound above, exactly once.
  */
  lemma DispatchedMeansEffected(steps: seq<Step>, f: Fingerprint)
    ensures var s := Run(INITIAL, steps);
            f in s.ledger && s.ledger[f].status.Dispatched? && Reaches(f, s.ledger[f].spec) ==>
              && Effected(s.vendor, f)
              && (s.ledger[f].spec.Keyed() || f !in s.swept ==>
                    Created(s.vendor.effects, f) == 1 && (SendsMessage(f) ==> Messaged(s.vendor.effects, f) == 1))
  {
    InitiallyInv();
    RunAccomplishes(INITIAL, steps);
    EffectsHappenAtMostOnce(steps, f);
    assert MarkedOk(Run(INITIAL, steps), f);
  }

  /** The dispatched mark, the audit row and the announcement stand or fall together. */
  lemma MarksAreAnnounced(steps: seq<Step>, f: Fingerprint)
    ensures var s := Run(INITIAL, steps);
            && s.audit == s.outbox
            && (f in s.audit ==> f in s.ledger)
            && (f in s.ledger && s.ledger[f].status.Dispatched? ==> f in s.audit)
            && (f in s.ledger && f !in s.swept ==>
                  multiset(s.audit)[f] == if s.ledger[f].status.Dispatched? then 1 else 0)
  {
    InitiallyInv();
    RunKeeps(INITIAL, steps);
    var s := Run(INITIAL, steps);
    assert RowOk(s, f) && FreshOk(s, f);
  }

  /**
   A first retry of an action that did reach the vendor repeats the effect exactly when the
   action was sent without a vendor key, which is how approvals are sent: the sweeper's key
   is then one the vendor has never seen.
  */
  lemma RetryIsSingleEffectExactlyWhenKeyed(s: State, pid: nat, f: Fingerprint)
    requires Inv(s) && pid !in s.stages && f in s.ledger && s.ledger[f].status.Pending? && f !in s.swept
    requires Created(s.vendor.effects, f) == 1 && Reaches(f, s.ledger[f].spec)
    ensures var retried := Next(Next(s, Sweep(pid, f)), CallVendor(pid, Answered));
            Created(retried.vendor.effects, f) == 1 <==> s.ledger[f].spec.Keyed()
  {
    assert RowOk(s, f) && KeyedOk(s, f);
    var spec := Retried(s.ledger[f].spec);
    FirstCallCreates(s.vendor, f, spec);
    var reply := FirstCall(s.vendor, f, spec);
    CreateEffects(s.vendor, reply.store, f, spec.vendorKey, reply.id, f);
  }

  // What one whole attempt does

  /** A tool run to its end: one call, and the notification if the call left a link to send. */
  function Attempt(s: State, pid: nat, first: Fate, second: Fate): State {
    var once := Next(s, CallVendor(pid, first));
    if pid in once.stages && once.stages[pid].LinkReady? then Next(once, CallVendor(pid, second)) else once
  }

  /** Whether the tool makes a notification request at all. */
  predicate Notifies(f: Fingerprint, spec: ActionSpec, first: Fate) {
    Reaches(f, spec) && SendsMessage(f) && first.Answered? && IsMedium(f.channel)
  }

  function ResourcesMade(f: Fingerprint, spec: ActionSpec, first: Fate): nat {
    if Reaches(f, spec) && !first.NeverArrived? then 1 else 0
  }

  function MessagesMade(f: Fingerprint, spec: ActionSpec, first: Fate, second: Fate): nat {
    if Notifies(f, spec, first) && !second.NeverArrived? then 1 else 0
  }

  /** Everything the tool asked for was answered. */
  predicate Completes(f: Fingerprint, spec: ActionSpec, first: Fate, second: Fate) {
    && (f.kind.SilentRetry? ==> spec.mandateRail)
    && (Reaches(f, spec) ==> first.Answered?)
    && (SendsMessage(f) ==> IsMedium(f.channel) && second.Answered?)
  }

  /** The tool refuses: no mandate rail to retry on, or a link made for a channel nothing can be sent over. */
  predicate Refuses(f: Fingerprint, spec: ActionSpec, first: Fate) {
    || (f.kind.SilentRetry? && !spec.mandateRail)
    || (SendsMessage(f) && first.Answered? && !IsMedium(f.channel))
  }

  function Ending(f: Fingerprint, spec: ActionSpec, first: Fate, second: Fate): Stage {
    if Completes(f, spec, first, second) then Returned(f, spec)
    else Errored(f, spec, if Refuses(f, spec, first) then Rejected else Failed)
  }

  /** What a step by one process did at the vendor, for the action it works on and for nothing else. */
  ghost predicate Adds(v: Store, w: Store, f: Fingerprint, resources: nat, messages: nat) {
    forall g ::
      && Created(w.effects, g) == Created(v.effects, g) + (if g == f then resources else 0)
      && Messaged(w.effects, g) == Messaged(v.effects, g) + (if g == f then messages else 0)
  }

  /** Nothing has been made yet for an action whose first attempt is about to call the vendor. */
  lemma FirstAttemptIsFresh(s: State, pid: nat)
    requires Inv(s) && pid in s.stages && s.stages[pid].Invoking? && s.stages[pid].key !in s.swept
    ensures var f, spec := s.stages[pid].key, s.stages[pid].spec;
            && f in s.ledger && s.ledger[f] == Row(spec, Pending) && spec.meaning == f
            && Created(s.vendor.effects, f) == 0 && Messaged(s.vendor.effects, f) == 0
            && s.vendor.Resolve(spec.vendorKey).None?
  {
    var f := s.stages[pid].key;
    assert StageOk(s, pid) && RowOk(s, f) && KeyedOk(s, f) && FreshOk(s, f) && WorksOn(s, pid, f);
  }

  lemma FirstCallAdds(v: Store, f: Fingerprint, spec: ActionSpec)
    requires !f.kind.Suppress? && !f.kind.Escalate? && v.Resolve(spec.vendorKey).None?
    ensures FirstCall(v, f, spec).id.Some? && Adds(v, FirstCall(v, f, spec).store, f, 1, 0)
  {
    FirstCallCreates(v, f, spec);
    var reply := FirstCall(v, f, spec);
    forall g ensures Messaged(reply.store.effects, g) == Messaged(v.effects, g)
             ensures Created(reply.store.effects, g) == Created(v.effects, g) + if g == f then 1 else 0 {
      CreateEffects(v, reply.store, f, spec.vendorKey, reply.id, g);
    }
  }

  /** The first call of a first attempt makes the resource whenever it arrives. */
  lemma FirstCallMakes(s: State, pid: nat, fate: Fate)
    requires pid in s.stages && s.stages[pid].Invoking? && s.vendor.Resolve(s.stages[pid].spec.vendorKey).None?
    ensures var f, spec := s.stages[pid].key, s.stages[pid].spec;
            var t := Next(s, CallVendor(pid, fate));
            && Adds(s.vendor, t.vendor, f, ResourcesMade(f, spec, fate), 0)
            && pid in t.stages && t == s.(vendor := t.vendor, stages := s.stages[pid := t.stages[pid]])
            && t.stages[pid].Working() && t.stages[pid].key == f && t.stages[pid].spec == spec
            && (t.stages[pid].LinkReady? <==> SendsMessage(f) && fate.Answered?)
            && (!t.stages[pid].LinkReady? ==> forall second :: t.stages[pid] == Ending(f, spec, fate, second))
  {
    var f, spec := s.stages[pid].key, s.stages[pid].spec;
    if Reaches(f, spec) {
      FirstCallAdds(s.vendor, f, spec);
    }
  }

  /** The notification of a first attempt is sent whenever it arrives and the channel can carry it. */
  lemma SecondCallSends(s: State, pid: nat, fate: Fate)
    requires Inv(s) && pid in s.stages && s.stages[pid].LinkReady? && s.stages[pid].key !in s.swept
    ensures var f, spec := s.stages[pid].key, s.stages[pid].spec;
            var t := Next(s, CallVendor(pid, fate));
            && Adds(s.vendor, t.vendor, f, 0, if IsMedium(f.channel) && !fate.NeverArrived? then 1 else 0)
            && pid in t.stages && t == s.(vendor := t.vendor, stages := s.stages[pid := t.stages[pid]])
            && t.stages[pid] == Ending(f, spec, Answered, fate)
  {
    var f, spec, link := s.stages[pid].key, s.stages[pid].spec, s.stages[pid].link;
    assert StageOk(s, pid) && RowOk(s, f) && FreshOk(s, f) && WorksOn(s, pid, f);
    var sent := s.vendor.effects + [Notified(f, link, f.channel)];
    forall g ensures Created(sent, g) == Created(s.vendor.effects, g)
             ensures Messaged(sent, g) == Messaged(s.vendor.effects, g) + if g == f then 1 else 0 {
      EffectAppend(s.vendor.effects, Notified(f, link, f.channel), g);
    }
  }

  /** A whole first attempt: what it leaves at the vendor and where it ends. */
  lemma AttemptDoes(s: State, pid: nat, first: Fate, second: Fate)
    requires Inv(s) && pid in s.stages && s.stages[pid].Invoking? && s.stages[pid].key !in s.swept
    ensures var f, spec := s.stages[pid].key, s.stages[pid].spec;
            var t := Attempt(s, pid, first, second);
            && Inv(t) && t == s.(vendor := t.vendor, stages := s.stages[pid := Ending(f, spec, first, second)])
            && Adds(s.vendor, t.vendor, f, ResourcesMade(f, spec, first), MessagesMade(f, spec, first, second))
  {
    FirstAttemptIsFresh(s, pid);
    FirstCallMakes(s, pid, first);
    StepKeeps(s, CallVendor(pid, first));
    var once := Next(s, CallVendor(pid, first));
    if once.stages[pid].LinkReady? {
      SecondCallSends(once, pid, second);
      StepKeeps(once, CallVendor(pid, second));
      assert once.stages[pid := Ending(s.stages[pid].key, s.stages[pid].spec, first, second)]
          == s.stages[pid := Ending(s.stages[pid].key, s.stages[pid].spec, first, second)];
    }
  }

  // Kind by kind

  /** What reaches the customer, tool by tool: the resource asked for, then the message over its link. */
  function Made(spec: ActionSpec, first: Fate, second: Fate, next: Id): seq<Effect> {
    var f, key := spec.meaning, spec.vendorKey;
    if first.NeverArrived? then []
    else
      match f.kind
      case Suppress => []
      case Escalate => []
      case SilentRetry => if spec.mandateRail then [Charged(f, key)] else []
      case ScheduleDebit => [Charged(f, key)]
      case PaymentLink => [LinkCreated(f, key)]
      case VoiceCall => [Called(f, key)]
      case Message => [LinkCreated(f, key)] + MessageMade(f, first, second, next)
      case DiscountOffer => [LinkCreated(f, key)] + MessageMade(f, first, second, next)
  }

  function MessageMade(f: Fingerprint, first: Fate, second: Fate, link: Id): seq<Effect> {
    if first.Answered? && !second.NeverArrived? && (f.channel.WhatsApp? || f.channel.Sms? || f.channel.Email?) then
      [Notified(f, link, f.channel)]
    else []
  }

  lemma FirstCallEffects(v: Store, f: Fingerprint, spec: ActionSpec)
    requires Reaches(f, spec) && v.Resolve(spec.vendorKey).None? && spec.meaning == f
    ensures var reply := FirstCall(v, f, spec);
            && reply.id == Some(v.next)
            && reply.store.effects == v.effects + Made(spec, ReplyLost, NeverArrived, v.next)
            && (SendsMessage(f) ==> v.next in reply.store.links && reply.store.links[v.next] == Link(f, {}))
  {
  }

  lemma SecondCallEffects(v: Store, f: Fingerprint, link: Id)
    requires link in v.links && v.links[link] == Link(f, {}) && IsMedium(f.channel)
    ensures NotifyBy(v, link, f.channel).store.effects == v.effects + MessageMade(f, Answered, Answered, link)
  {
  }

  /** After the first call the link, if there is one to send, is the newest resource. */
  lemma FirstCallLeaves(s: State, pid: nat, fate: Fate)
    requires pid in s.stages && s.stages[pid].Invoking? && s.stages[pid].spec.meaning == s.stages[pid].key
    requires s.vendor.Resolve(s.stages[pid].spec.vendorKey).None?
    ensures var f, spec := s.stages[pid].key, s.stages[pid].spec;
            var t := Next(s, CallVendor(pid, fate));
            && t.vendor.effects == s.vendor.effects + Made(spec, if fate.Answered? then ReplyLost else fate,
                                                           NeverArrived, s.vendor.next)
            && pid in t.stages && (t.stages[pid].LinkReady? <==> SendsMessage(f) && fate.Answered?)
            && (t.stages[pid].LinkReady? ==>
                  && t.stages[pid] == LinkReady(f, spec, s.vendor.next)
                  && s.vendor.next in t.vendor.links && t.vendor.links[s.vendor.next] == Link(f, {}))
  {
    var f, spec := s.stages[pid].key, s.stages[pid].spec;
    if Reaches(f, spec) && !fate.NeverArrived? {
      FirstCallEffects(s.vendor, f, spec);
    }
  }

  lemma SecondCallLeaves(s: State, pid: nat, f: Fingerprint, spec: ActionSpec, link: Id, fate: Fate)
    requires pid in s.stages && s.stages[pid] == LinkReady(f, spec, link)
    requires link in s.vendor.links && s.vendor.links[link] == Link(f, {})
    ensures Next(s, CallVendor(pid, fate)).vendor.effects == s.vendor.effects + MessageMade(f, Answered, fate, link)
  {
    if IsMedium(f.channel) {
      SecondCallEffects(s.vendor, f, link);
    }
  }

  lemma MadeInTwo(spec: ActionSpec, first: Fate, second: Fate, next: Id)
    ensures Made(spec, first, second, next)
         == Made(spec, if first.Answered? then ReplyLost else first, NeverArrived, next)
            + if SendsMessage(spec.meaning) then MessageMade(spec.meaning, first, second, next) else []
  {
  }

  /** A whole first attempt leaves exactly these effects. */
  lemma AttemptEffects(s: State, pid: nat, first: Fate, second: Fate)
    requires Inv(s) && pid in s.stages && s.stages[pid].Invoking? && s.stages[pid].key !in s.swept
    ensures Attempt(s, pid, first, second).vendor.effects
         == s.vendor.effects + Made(s.stages[pid].spec, first, second, s.vendor.next)
  {
    var f, spec := s.stages[pid].key, s.stages[pid].spec;
    FirstAttemptIsFresh(s, pid);
    FirstCallLeaves(s, pid, first);
    MadeInTwo(spec, first, second, s.vendor.next);
    var once := Next(s, CallVendor(pid, first));
    if once.stages[pid].LinkReady? {
      SecondCallLeaves(once, pid, f, spec, s.vendor.next, second);
    }
  }

  /**
   When a first attempt has been recorded: it is marked failed with its resource made exactly
   when the first reply was lost, or when the notification that followed was not answered;
   marked rejected with its resource made exactly when no channel could carry the link; and
   marked failed with its message sent exactly when the notification's reply was lost.
  */
  lemma FailedEffectExactlyWhenCutShort(s: State, pid: nat, first: Fate, second: Fate)
    requires Inv(s) && pid in s.stages && s.stages[pid].Invoking? && s.stages[pid].key !in s.swept
    ensures var f, spec := s.stages[pid].key, s.stages[pid].spec;
            var t := Next(Attempt(s, pid, first, second), MarkError(pid));
            && f in t.ledger
            && (t.ledger[f].status.Failed? && Created(t.vendor.effects, f) > 0 <==>
                  (Reaches(f, spec) && first.ReplyLost?) || (Notifies(f, spec, first) && !second.Answered?))
            && (t.ledger[f].status.Rejected? && Created(t.vendor.effects, f) > 0 <==>
                  SendsMessage(f) && first.Answered? && !IsMedium(f.channel))
            && (t.ledger[f].status.Failed? && Messaged(t.vendor.effects, f) > 0 <==>
                  Notifies(f, spec, first) && second.ReplyLost?)
  {
    FirstAttemptIsFresh(s, pid);
    AttemptDoes(s, pid, first, second);
  }

  /** A message that reached the customer is marked failed exactly when its reply was lost. */
  lemma FailedMessageExactlyWhenReplyLost(s: State, pid: nat, fate: Fate)
    requires Inv(s) && pid in s.stages && s.stages[pid].LinkReady? && s.stages[pid].key !in s.swept
    requires IsMedium(s.stages[pid].key.channel)
    ensures var f := s.stages[pid].key;
            var t := Next(Next(s, CallVendor(pid, fate)), MarkError(pid));
            f in t.ledger && (t.ledger[f].status.Failed? && Messaged(t.vendor.effects, f) > 0 <==> fate.ReplyLost?)
  {
    var f := s.stages[pid].key;
    assert StageOk(s, pid) && RowOk(s, f) && FreshOk(s, f) && WorksOn(s, pid, f);
    SecondCallSends(s, pid, fate);
  }

  // One undisturbed dispatch

  datatype DispatchOutcome = Sent | Duplicate | NotSent(verdict: Status) {
    /** The status the row is left with. */
    function Mark(): Status
      requires !Duplicate?
    {
      if Sent? then Dispatched else verdict
    }
  }

  /** How a dispatch that was not a duplicate ends, given what became of its two vendor calls. */
  function OutcomeOf(spec: ActionSpec, first: Fate, second: Fate): DispatchOutcome {
    if Completes(spec.meaning, spec, first, second) then DispatchOutcome.Sent
    else NotSent(if Refuses(spec.meaning, spec, first) then Rejected else Failed)
  }

  /** How a dispatch that was not a duplicate ends, tool by tool. */
  function OutcomeByKind(spec: ActionSpec, first: Fate, second: Fate): DispatchOutcome {
    var once := if first.Answered? then DispatchOutcome.Sent else NotSent(Failed);
    match spec.meaning.kind
    case Suppress => DispatchOutcome.Sent
    case Escalate => DispatchOutcome.Sent
    case SilentRetry => if spec.mandateRail then once else NotSent(Rejected)
    case ScheduleDebit => once
    case PaymentLink => once
    case VoiceCall => once
    case Message => MessageOutcome(spec.meaning.channel, first, second)
    case DiscountOffer => MessageOutcome(spec.meaning.channel, first, second)
  }

  function MessageOutcome(channel: Channel, first: Fate, second: Fate): DispatchOutcome {
    if !first.Answered? then NotSent(Failed)
    else if channel.NoChannel? || channel.Voice? then NotSent(Rejected)
    else if second.Answered? then DispatchOutcome.Sent
    else NotSent(Failed)
  }

  lemma OutcomesAgree(spec: ActionSpec, first: Fate, second: Fate)
    ensures OutcomeOf(spec, first, second) == OutcomeByKind(spec, first, second)
  {
  }

  class Dispatcher {
    const pid: nat
    var state: State

    constructor (pid: nat, state: State)
      ensures this.pid == pid && this.state == state
    {
      this.pid, this.state := pid, state;
    }

    method Perform(step: Step)
      requires Inv(state)
      modifies this
      ensures state == Next(old(state), step) && Inv(state)
    {
      StepKeeps(state, step);
      state := Next(state, step);
    }

    /** Runs the tool to its end: everything answered, or the first thing that went wrong. */
    method InvokeTool(spec: ActionSpec, first: Fate, second: Fate)
      requires Inv(state) && pid in state.stages && state.stages[pid] == Invoking(spec.meaning, spec)
      modifies this
      ensures Inv(state) && state == Attempt(old(state), pid, first, second)
    {
      Perform(CallVendor(pid, first));
      if state.stages[pid].LinkReady? {
        Perform(CallVendor(pid, second));
      }
    }

    /** Takes the lock and claims the key; fails if either is already held. */
    method Claim(spec: ActionSpec, redisDown: bool) returns (claimed: bool)
      requires Inv(state) && pid !in state.stages && spec.WellFormed()
      modifies this
      ensures Inv(state)
      ensures claimed <==> spec.meaning !in old(state).ledger && (redisDown || spec.meaning !in old(state).locks)
      ensures claimed ==>
                state == old(state).(locks := state.locks,
                                     ledger := old(state).ledger[spec.meaning := Row(spec, Pending)],
                                     stages := old(state).stages[pid := Invoking(spec.meaning, spec)])
      ensures !claimed ==> state == old(state).(locks := state.locks)
      ensures !redisDown ==> state.locks == old(state).locks + if claimed then {spec.meaning} else {}
    {
      Perform(Start(pid, spec, redisDown));
      if pid !in state.stages {
        return false;
      }
      Perform(RecordIntent(pid));
      claimed := state.stages[pid].Invoking?;
      if !claimed {
        Perform(Release(pid));
        assert state.stages == old(state).stages;
      }
    }

    /** Commits the outcome and releases the lock. */
    method Settle(spec: ActionSpec) returns (outcome: DispatchOutcome)
      requires Inv(state) && pid in state.stages && (state.stages[pid].Returned? || state.stages[pid].Errored?)
      requires state.stages[pid].key == spec.meaning && state.stages[pid].spec == spec
      requires spec.meaning in state.ledger && state.ledger[spec.meaning].spec == spec
      modifies this
      ensures Inv(state) && spec.meaning in old(state).ledger && state.vendor == old(state).vendor
      ensures state.stages == old(state).stages - {pid}
      ensures old(state).stages[pid].Returned? ==> outcome.Sent? && state.audit == old(state).audit + [spec.meaning]
      ensures old(state).stages[pid].Errored? ==>
                outcome == NotSent(old(state).stages[pid].verdict) && state.audit == old(state).audit
      ensures state.ledger == old(state).ledger[spec.meaning :=
                Row(spec, if outcome.Sent? then Dispatched else old(state).stages[pid].verdict)]
      ensures state.locks == old(state).locks - {spec.meaning}
    {
      assert StageOk(state, pid);
      if state.stages[pid].Errored? {
        outcome := NotSent(state.stages[pid].verdict);
        Perform(MarkError(pid));
      } else {
        outcome := Sent;
        Perform(Finish(pid));
      }
      Perform(Release(pid));
    }

    /** The claimed part of a dispatch: calls the vendor and commits what came of it. */
    method Execute(spec: ActionSpec, first: Fate, second: Fate) returns (outcome: DispatchOutcome)
      requires Inv(state) && pid in state.stages && state.stages[pid] == Invoking(spec.meaning, spec)
      requires spec.meaning !in state.swept
      modifies this
      ensures Inv(state) && outcome == OutcomeOf(spec, first, second)
      ensures state.stages == old(state).stages - {pid}
      ensures Adds(old(state).vendor, state.vendor, spec.meaning, ResourcesMade(spec.meaning, spec, first),
                   MessagesMade(spec.meaning, spec, first, second))
      ensures state.vendor.effects == old(state).vendor.effects + Made(spec, first, second, old(state).vendor.next)
      ensures state.ledger == old(state).ledger[spec.meaning := Row(spec, outcome.Mark())]
      ensures state.audit == old(state).audit + if outcome.Sent? then [spec.meaning] else []
      ensures state.locks == old(state).locks - {spec.meaning}
    {
      FirstAttemptIsFresh(state, pid);
      AttemptEffects(state, pid, first, second);
      AttemptDoes(state, pid, first, second);
      InvokeTool(spec, first, second);
      outcome := Settle(spec);
    }

    /**
     Lock, commit the intent, call the vendor, commit the outcome, release. The outcome, the
     row, the audit and what the vendor did all follow from what became of the two calls.
    */
    method Dispatch(spec: ActionSpec, redisDown: bool, first: Fate, second: Fate) returns (outcome: DispatchOutcome)
      requires Inv(state) && pid !in state.stages && spec.WellFormed()
      modifies this
      ensures Inv(state) && state.stages == old(state).stages
      ensures outcome.Duplicate? <==>
                spec.meaning in old(state).ledger || (!redisDown && spec.meaning in old(state).locks)
      ensures outcome.Duplicate? ==> state == old(state).(locks := state.locks)
      ensures !outcome.Duplicate? ==>
                && outcome == OutcomeByKind(spec, first, second)
                && state.vendor.effects == old(state).vendor.effects + Made(spec, first, second, old(state).vendor.next)
                && Created(old(state).vendor.effects, spec.meaning) == 0
                && Messaged(old(state).vendor.effects, spec.meaning) == 0
                && Adds(old(state).vendor, state.vendor, spec.meaning, ResourcesMade(spec.meaning, spec, first),
                        MessagesMade(spec.meaning, spec, first, second))
                && state.ledger == old(state).ledger[spec.meaning := Row(spec, outcome.Mark())]
      ensures state.audit == old(state).audit + if outcome.Sent? then [spec.meaning] else []
      ensures !redisDown ==> state.locks == old(state).locks
      ensures !outcome.Duplicate? && (spec.meaning.kind.Message? || spec.meaning.kind.DiscountOffer?)
              && first.Answered? && second.Answered? ==>
                var carried := spec.meaning.channel in {WhatsApp, Sms, Email};
                && outcome == (if carried then DispatchOutcome.Sent else NotSent(Rejected))
                && Messaged(state.vendor.effects, spec.meaning) == if carried then 1 else 0
    {
      assert RowOk(state, spec.meaning);
      OutcomesAgree(spec, first, second);
      var claimed := Claim(spec, redisDown);
      if !claimed {
        return Duplicate;
      }
      outcome := Execute(spec, first, second);
      assert state.stages == old(state).stages;
    }
  }

  const APPROVED := Fingerprint(0, 0, ScheduleDebit, NoChannel, 0, 100, 0)
  const UNKEYED := ActionSpec(APPROVED, None, true)

  function Intended(spec: ActionSpec): State {
    Next(Next(INITIAL, Start(0, spec, false)), RecordIntent(0))
  }

  lemma IntendedState(spec: ActionSpec)
    requires spec.WellFormed()
    ensures var s := Intended(spec);
            && s.stages == map[0 := Invoking(spec.meaning, spec)] && s.vendor == EMPTY
            && s.ledger == map[spec.meaning := Row(spec, Pending)] && s.audit == [] && s.swept == {}
  {
    assert Next(INITIAL, Start(0, spec, false)).stages == map[0 := Holding(spec)];
  }

  /** An approved debit whose dispatcher crashed after the vendor had acted. */
  function CrashedApproval(): State {
    Next(Next(Intended(UNKEYED), CallVendor(0, Answered)), Crash(0))
  }

  lemma CrashedApprovalState()
    ensures var s := CrashedApproval();
            && s.vendor.effects == [Charged(APPROVED, None)] && s.stages == map[]
            && s.ledger == map[APPROVED := Row(UNKEYED, Pending)] && s.vendor.idempotency == map[]
  {
    IntendedState(UNKEYED);
    var called := Next(Intended(UNKEYED), CallVendor(0, Answered));
    assert called.vendor == FirstCall(EMPTY, APPROVED, UNKEYED).store;
    assert called.vendor.effects == [Charged(APPROVED, None)];
  }

  lemma SweptCharges(s: State)
    requires s.stages == map[] && s.ledger == map[APPROVED := Row(UNKEYED, Pending)] && s.vendor.idempotency == map[]
    requires s.vendor.effects == [Charged(APPROVED, None)]
    ensures Created(s.vendor.effects, APPROVED) == 1
    ensures Created(Next(Next(s, Sweep(1, APPROVED)), CallVendor(1, Answered)).vendor.effects, APPROVED) == 2
  {
    var first, second := Charged(APPROVED, None), Charged(APPROVED, Some(APPROVED));
    var swept := Next(s, Sweep(1, APPROVED));
    assert swept.stages[1] == Invoking(APPROVED, Retried(UNKEYED)) && swept.vendor == s.vendor;
    assert Next(swept, CallVendor(1, Answered)).vendor == FirstCall(s.vendor, APPROVED, Retried(UNKEYED)).store;
    assert s.vendor.effects == [] + [first];
    EffectAppend([], first, APPROVED);
    EffectAppend(s.vendor.effects, second, APPROVED);
  }

  /** Retrying it with the row's key charges the customer a second time. */
  lemma UnkeyedRetryChargesTwice()
    ensures Created(CrashedApproval().vendor.effects, APPROVED) == 1
    ensures var retried := Next(Next(CrashedApproval(), Sweep(1, APPROVED)), CallVendor(1, Answered));
            Created(retried.vendor.effects, APPROVED) == 2
  {
    CrashedApprovalState();
    SweptCharges(CrashedApproval());
  }

  lemma CallLost(s: State, f: Fingerprint)
    requires f.kind.VoiceCall? && s.vendor == EMPTY && s.audit == []
    requires s.stages == map[0 := Invoking(f, ActionSpec(f, Some(f), false))]
    requires s.ledger == map[f := Row(ActionSpec(f, Some(f), false), Pending)]
    ensures var t := Next(s, CallVendor(0, ReplyLost));
            && t.vendor.effects == [Called(f, Some(f))] && t.ledger == s.ledger && t.audit == []
            && t.stages == map[0 := Errored(f, ActionSpec(f, Some(f), false), Failed)]
  {
    var t := Next(s, CallVendor(0, ReplyLost));
    assert t.vendor == FirstCall(EMPTY, f, ActionSpec(f, Some(f), false)).store;
    assert t.vendor.effects == [] + [Called(f, Some(f))];
  }

  /** A call the customer received, marked failed and absent from the audit: nothing will count it. */
  lemma LostReplyLeavesAnUncountedCall(f: Fingerprint)
    requires f.kind.VoiceCall?
    ensures var spec := ActionSpec(f, Some(f), false);
            var s := Next(Next(Intended(spec), CallVendor(0, ReplyLost)), MarkError(0));
            f in s.ledger && s.ledger[f].status.Failed? && f !in s.audit && Created(s.vendor.effects, f) == 1
  {
    IntendedState(ActionSpec(f, Some(f), false));
    CallLost(Intended(ActionSpec(f, Some(f), false)), f);
    assert [Called(f, Some(f))] == [] + [Called(f, Some(f))];
    EffectAppend([], Called(f, Some(f)), f);
  }
}
