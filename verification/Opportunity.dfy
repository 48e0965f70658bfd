/**
 Opportunity formation: payment events become recovery cases. Delivery is at least once and
 out of order; a durable table of processed event ids, a version check and an index that
 allows one live case per obligation make applying an event twice the same as once.
*/
module Opportunity {
  import opened Options

  type EventId = nat
  type MerchantId = nat
  type CustomerId = nat
  type ObligationId = nat

  datatype Arm = Treatment | Holdout

  datatype CaseState =
    | Open
    | Planning
    | Scheduled
    | Acting
    | AwaitingOutcome
    | Escalated
    | HeldOut
    | Stopped
    | Recovered
    | Lost
  {
    /** What the unique index counts. */
    predicate Live() {
      !Stopped? && !Recovered? && !Lost?
    }
  }

  /** A row of the case table; its position in the table stands for its chronological id. */
  datatype Case = Case(
    obligation: ObligationId,
    merchant: MerchantId,
    customer: CustomerId,
    state: CaseState,
    arm: Arm,
    version: nat)

  datatype Obligation = Obligation(isOpen: bool, version: int)

  datatype Db = Db(obligations: map<ObligationId, Obligation>, cases: seq<Case>, processed: set<EventId>)

  datatype EventType = Failure | Capture | Unknown | Unreadable

  /** An event as delivered: any field but the type may be missing. */
  datatype Event = Event(
    kind: EventType,
    id: Option<EventId>,
    merchant: Option<MerchantId>,
    customer: Option<CustomerId>,
    obligation: Option<ObligationId>,
    timestamped: bool,
    version: int)
  {
    /** Of a type this stage consumes, with an id to dedup on. */
    predicate Actionable() {
      (kind.Failure? || kind.Capture?) && id.Some?
    }

    predicate WellFormed() {
      merchant.Some? && customer.Some? && obligation.Some? && timestamped
    }
  }

  const BUCKETS := 10000

  /** The keyed hash of a merchant and a customer, and the share of buckets held out. */
  datatype Split = Split(digest: (MerchantId, CustomerId) -> nat, holdoutPct: real) {
    function AssignArm(merchant: MerchantId, customer: CustomerId): Arm {
      if (digest(merchant, customer) % BUCKETS) as real < holdoutPct * 100.0 then Holdout else Treatment
    }
  }

  datatype Verdict = Opened | Resolved | Duplicate | Superseded | Ignored | Malformed

  predicate LiveFor(c: Case, o: ObligationId) {
    c.state.Live() && c.obligation == o
  }

  predicate HasLive(cases: seq<Case>, o: ObligationId) {
    exists i :: 0 <= i < |cases| && LiveFor(cases[i], o)
  }

  function Closed(c: Case, o: ObligationId): Case {
    if LiveFor(c, o) then c.(state := Recovered, version := c.version + 1) else c
  }

  /** A capture closes whatever live case its obligation has. */
  function Resolve(cases: seq<Case>, o: ObligationId): (r: seq<Case>)
    ensures |r| == |cases| && forall i :: 0 <= i < |cases| ==> r[i] == Closed(cases[i], o)
  {
    seq(|cases|, i requires 0 <= i < |cases| => Closed(cases[i], o))
  }

  /** The effect of an event that is known to be new and well formed. */
  function Apply(split: Split, db: Db, e: Event): (Db, Verdict)
    requires e.WellFormed()
  {
    var o := e.obligation.value;
    if e.kind.Capture? then
      (db.(cases := Resolve(db.cases, o)), if HasLive(db.cases, o) then Resolved else Ignored)
    else if o !in db.obligations then (db, Ignored)
    else if e.version + 1 < db.obligations[o].version then (db, Superseded)
    else if !db.obligations[o].isOpen then (db, Ignored)
    else if HasLive(db.cases, o) then (db, Duplicate)
    else
      var arm := split.AssignArm(e.merchant.value, e.customer.value);
      (db.(cases := db.cases + [Case(o, e.merchant.value, e.customer.value, Open, arm, 0)]), Opened)
  }

  /** One event through the dedup layers; `seen` is what the fast cache answered. */
  function Ingest(split: Split, db: Db, e: Event, seen: bool): (Db, Verdict) {
    if !e.Actionable() then (db, Ignored)
    else if seen || e.id.value in db.processed then (db, Duplicate)
    else
      var recorded := db.(processed := db.processed + {e.id.value});
      if !e.WellFormed() then (recorded, Malformed) else Apply(split, recorded, e)
  }

  // What every event keeps

  ghost predicate OneLivePerObligation(cases: seq<Case>) {
    forall i, j :: 0 <= i < j < |cases| && cases[i].state.Live() && cases[j].state.Live() ==>
      cases[i].obligation != cases[j].obligation
  }

  ghost predicate ArmsAssigned(split: Split, cases: seq<Case>) {
    forall i :: 0 <= i < |cases| ==> cases[i].arm == split.AssignArm(cases[i].merchant, cases[i].customer)
  }

  /** Rows are never removed, what identifies them never changes, and a closed case stays closed. */
  ghost predicate Extends(before: seq<Case>, after: seq<Case>) {
    && |before| <= |after|
    && forall i :: 0 <= i < |before| ==>
         && after[i] == before[i].(state := after[i].state, version := after[i].version)
         && (!before[i].state.Live() ==> after[i] == before[i])
  }

  /** Whatever arrives, an obligation has one live case, and arms are what the split says. */
  lemma IngestKeeps(split: Split, db: Db, e: Event, seen: bool)
    requires OneLivePerObligation(db.cases) && ArmsAssigned(split, db.cases)
    ensures var next := Ingest(split, db, e, seen).0;
            OneLivePerObligation(next.cases) && ArmsAssigned(split, next.cases) && Extends(db.cases, next.cases)
  {
  }

  // What each event does to the tables

  /** A case that is neither stopped, recovered nor lost occupies its obligation. */
  ghost predicate Occupies(c: Case, o: ObligationId) {
    c.obligation == o && c.state != Stopped && c.state != Recovered && c.state != Lost
  }

  ghost predicate Occupied(cases: seq<Case>, o: ObligationId) {
    exists i :: 0 <= i < |cases| && Occupies(cases[i], o)
  }

  /** An event that can be acted on, is complete, and has not been seen before. */
  predicate News(db: Db, e: Event, seen: bool) {
    && (e.kind.Failure? || e.kind.Capture?) && e.id.Some? && !seen && e.id.value !in db.processed
    && e.merchant.Some? && e.customer.Some? && e.obligation.Some? && e.timestamped
  }

  lemma OccupiedIsLive(cases: seq<Case>, o: ObligationId)
    ensures HasLive(cases, o) <==> Occupied(cases, o)
  {
    if Occupied(cases, o) {
      var i :| 0 <= i < |cases| && Occupies(cases[i], o);
      assert LiveFor(cases[i], o);
    }
    if HasLive(cases, o) {
      var i :| 0 <= i < |cases| && LiveFor(cases[i], o);
      assert Occupies(cases[i], o);
    }
  }

  /** A capture recovers every case that occupied its obligation, and touches no other. */
  lemma CaptureCloses(split: Split, db: Db, e: Event, seen: bool)
    requires News(db, e, seen) && e.kind.Capture?
    ensures var (next, verdict) := Ingest(split, db, e, seen);
            var o := e.obligation.value;
            && !Occupied(next.cases, o) && |next.cases| == |db.cases|
            && (forall i :: 0 <= i < |db.cases| ==>
                  next.cases[i] == if Occupies(db.cases[i], o)
                                     then db.cases[i].(state := Recovered, version := db.cases[i].version + 1)
                                   else db.cases[i])
            && verdict == (if Occupied(db.cases, o) then Resolved else Ignored)
            && next.obligations == db.obligations && next.processed == db.processed + {e.id.value}
  {
    OccupiedIsLive(db.cases, e.obligation.value);
  }

  /**
   A failure opens a case if and only if its obligation is known and open, the event is at most
   one version behind, and no case occupies it; the new case is open, unversioned and in the
   arm of its customer. Otherwise no case changes, and the verdict says which of these it was.
  */
  lemma FailureOpens(split: Split, db: Db, e: Event, seen: bool)
    requires News(db, e, seen) && e.kind.Failure?
    ensures var (next, verdict) := Ingest(split, db, e, seen);
            var o, merchant, customer := e.obligation.value, e.merchant.value, e.customer.value;
            && next.obligations == db.obligations && next.processed == db.processed + {e.id.value}
            && (verdict == Opened <==> o in db.obligations && db.obligations[o].isOpen
                                       && e.version >= db.obligations[o].version - 1 && !Occupied(db.cases, o))
            && (verdict == Opened ==>
                  next.cases == db.cases + [Case(o, merchant, customer, Open, split.AssignArm(merchant, customer), 0)])
            && (verdict != Opened ==> next.cases == db.cases)
            && (verdict == Superseded <==> o in db.obligations && e.version < db.obligations[o].version - 1)
            && (verdict == Ignored <==>
                  (o !in db.obligations
                   || (e.version >= db.obligations[o].version - 1 && !db.obligations[o].isOpen)))
            && (verdict == Duplicate <==> o in db.obligations && db.obligations[o].isOpen
                                          && e.version >= db.obligations[o].version - 1 && Occupied(db.cases, o))
  {
    OccupiedIsLive(db.cases, e.obligation.value);
  }

  /** Everything else changes no case: it is not consumed here, seen before, or quarantined. */
  lemma OldNewsIsHarmless(split: Split, db: Db, e: Event, seen: bool)
    requires !News(db, e, seen)
    ensures var (next, verdict) := Ingest(split, db, e, seen);
            && next.cases == db.cases && next.obligations == db.obligations
            && (verdict == Ignored <==> !(e.kind.Failure? || e.kind.Capture?) || e.id.None?)
            && (verdict == Duplicate <==> (e.kind.Failure? || e.kind.Capture?) && e.id.Some?
                                          && (seen || e.id.value in db.processed))
            && (verdict == Malformed <==> (e.kind.Failure? || e.kind.Capture?) && e.id.Some?
                                          && !seen && e.id.value !in db.processed)
            && next.processed == db.processed + if verdict == Malformed then {e.id.value} else {}
  {
  }

  // The split

  /** The arm of a customer whose hash is the given number. */
  function ArmOf(hash: nat, holdoutPct: real): Arm {
    Split((merchant, customer) => hash, holdoutPct).AssignArm(0, 0)
  }

  /** How many of the first n hashes are held out. */
  function HeldHashes(n: nat, holdoutPct: real): nat {
    if n == 0 then 0 else HeldHashes(n - 1, holdoutPct) + if ArmOf(n - 1, holdoutPct) == Holdout then 1 else 0
  }

  /** A holdout of so many percent takes exactly that share of every ten thousand hashes. */
  lemma {:induction false} HoldoutShareIsExact(pct: nat, n: nat, k: nat)
    requires pct <= 100 && n <= 10000
    ensures HeldHashes(n, pct as real) == if n <= 100 * pct then n else 100 * pct
    ensures ArmOf(k + 10000, pct as real) == ArmOf(k, pct as real)
  {
    if n > 0 {
      HoldoutShareIsExact(pct, n - 1, k);
    }
  }

  // Folding a log

  /** A log without its bad records: those are quarantined and leave nothing behind. */
  function Absorb(split: Split, db: Db, e: Event): Db {
    var (next, verdict) := Ingest(split, db, e, false);
    if verdict.Malformed? then db else next
  }

  /** The state after ingesting every event of a log once, in order. */
  function Fold(split: Split, db: Db, log: seq<Event>): Db {
    if log == [] then db else Absorb(split, Fold(split, db, log[..|log| - 1]), log[|log| - 1])
  }

  lemma FoldExtend(split: Split, db: Db, log: seq<Event>, n: nat)
    requires n < |log|
    ensures Fold(split, db, log[..n + 1]) == Absorb(split, Fold(split, db, log[..n]), log[n])
  {
    assert log[..n + 1][..n] == log[..n];
  }

  lemma {:induction false} FoldConcat(split: Split, db: Db, a: seq<Event>, b: seq<Event>)
    ensures Fold(split, db, a + b) == Fold(split, Fold(split, db, a), b)
    decreases |b|
  {
    if b == [] {
      assert a + b == a;
    } else {
      assert (a + b)[..|a + b| - 1] == a + b[..|b| - 1];
      FoldConcat(split, db, a, b[..|b| - 1]);
    }
  }

  /** Ids are only ever added. */
  lemma {:induction false} FoldRemembers(split: Split, db: Db, log: seq<Event>)
    ensures db.processed <= Fold(split, db, log).processed
    decreases |log|
  {
    if log != [] {
      FoldRemembers(split, db, log[..|log| - 1]);
    }
  }

  /** Redelivering any event of a folded log changes nothing. */
  lemma {:induction false} RedeliveryIsANoOp(split: Split, db: Db, log: seq<Event>, i: nat, seen: bool)
    requires i < |log|
    ensures var folded := Fold(split, db, log);
            && Absorb(split, folded, log[i]) == folded
            && (log[i].WellFormed() ==> Ingest(split, folded, log[i], seen).0 == folded)
    decreases |log|
  {
    var e := log[i];
    var after := Fold(split, db, log[..i + 1]);
    FoldExtend(split, db, log, i);
    assert log == log[..i + 1] + log[i + 1..];
    FoldConcat(split, db, log[..i + 1], log[i + 1..]);
    FoldRemembers(split, after, log[i + 1..]);
    if e.Actionable() && e.WellFormed() {
      assert e.id.value in after.processed;
    }
  }

  /** A log delivered twice in a row is a log delivered once. */
  lemma {:induction false} ReplayIsANoOp(split: Split, db: Db, log: seq<Event>, n: nat)
    requires n <= |log|
    ensures Fold(split, Fold(split, db, log), log[..n]) == Fold(split, db, log)
  {
    if n > 0 {
      ReplayIsANoOp(split, db, log, n - 1);
      RedeliveryIsANoOp(split, db, log, n - 1, false);
      FoldExtend(split, Fold(split, db, log), log[..n], n - 1);
      assert log[..n][..n] == log[..n] && log[..n][..n - 1] == log[..n - 1];
    }
  }

  // Exactly once

  predicate IsRepeat(earlier: seq<Event>, e: Event) {
    exists i :: 0 <= i < |earlier| && earlier[i].Actionable() && earlier[i].WellFormed() && earlier[i].id == e.id
  }

  /** The first well-formed delivery of every actionable event. */
  function FirstDeliveries(log: seq<Event>): seq<Event> {
    if log == [] then []
    else
      var earlier, e := log[..|log| - 1], log[|log| - 1];
      if e.Actionable() && e.WellFormed() && !IsRepeat(earlier, e) then FirstDeliveries(earlier) + [e]
      else FirstDeliveries(earlier)
  }

  /** Applying a list of events with no dedup of any kind. */
  function ApplyAll(split: Split, db: Db, events: seq<Event>): Db
    requires forall e :: e in events ==> e.WellFormed()
  {
    if events == [] then db
    else
      assert forall e :: e in events[..|events| - 1] ==> e in events;
      Apply(split, ApplyAll(split, db, events[..|events| - 1]), events[|events| - 1]).0
  }

  lemma {:induction false} FirstDeliveriesAreWellFormed(log: seq<Event>)
    ensures forall e :: e in FirstDeliveries(log) ==> e.WellFormed() && e.Actionable()
  {
    if log != [] {
      FirstDeliveriesAreWellFormed(log[..|log| - 1]);
    }
  }

  /** The ids recorded are those of the well-formed actionable events seen so far. */
  lemma {:induction false} ProcessedIds(split: Split, db: Db, log: seq<Event>, e: Event)
    requires db.processed == {} && e.id.Some?
    ensures e.id.value in Fold(split, db, log).processed <==> IsRepeat(log, e)
    decreases |log|
  {
    if log != [] {
      var earlier, last := log[..|log| - 1], log[|log| - 1];
      ProcessedIds(split, db, earlier, e);
      if IsRepeat(earlier, e) {
        var i :| 0 <= i < |earlier| && earlier[i].Actionable() && earlier[i].WellFormed() && earlier[i].id == e.id;
        assert log[i] == earlier[i];
      }
      if IsRepeat(log, e) {
        var i :| 0 <= i < |log| && log[i].Actionable() && log[i].WellFormed() && log[i].id == e.id;
        assert i == |log| - 1 || log[i] == earlier[i];
      }
    }
  }

  /** What an event does depends on the tables, never on which ids are recorded. */
  lemma ApplyIgnoresIds(split: Split, a: Db, b: Db, e: Event)
    requires a.cases == b.cases && a.obligations == b.obligations && e.WellFormed()
    ensures var x, y := Apply(split, a, e).0, Apply(split, b, e).0;
            x.cases == y.cases && x.obligations == y.obligations == a.obligations
  {
    if e.kind.Capture? {
      assert Resolve(a.cases, e.obligation.value) == Resolve(b.cases, e.obligation.value);
    }
  }

  /** One more record: a new event is applied once, anything else changes no case. */
  lemma LastDelivery(split: Split, db: Db, earlier: seq<Event>, e: Event)
    requires db.processed == {}
    requires forall x :: x in FirstDeliveries(earlier) ==> x.WellFormed()
    requires Fold(split, db, earlier).cases == ApplyAll(split, db, FirstDeliveries(earlier)).cases
    requires ApplyAll(split, db, FirstDeliveries(earlier)).obligations == Fold(split, db, earlier).obligations
    ensures var next := Absorb(split, Fold(split, db, earlier), e);
            var first := FirstDeliveries(earlier);
            && next.obligations == Fold(split, db, earlier).obligations
            && if e.Actionable() && e.WellFormed() && !IsRepeat(earlier, e) then
                 next.cases == Apply(split, ApplyAll(split, db, first), e).0.cases
               else next.cases == Fold(split, db, earlier).cases
  {
    if e.Actionable() && e.WellFormed() {
      var folded := Fold(split, db, earlier);
      ProcessedIds(split, db, earlier, e);
      if !IsRepeat(earlier, e) {
        var recorded := folded.(processed := folded.processed + {e.id.value});
        ApplyIgnoresIds(split, recorded, ApplyAll(split, db, FirstDeliveries(earlier)), e);
      }
    }
  }

  lemma ApplyOneMore(split: Split, db: Db, first: seq<Event>, e: Event)
    requires e.WellFormed() && forall x :: x in first ==> x.WellFormed()
    ensures forall x :: x in first + [e] ==> x.WellFormed()
    ensures ApplyAll(split, db, first + [e]) == Apply(split, ApplyAll(split, db, first), e).0
  {
    assert (first + [e])[..|first|] == first;
  }

  /** At-least-once delivery through the dedup layers has exactly-once effect. */
  lemma {:induction false} ExactlyOnceEffect(split: Split, db: Db, log: seq<Event>)
    requires db.processed == {}
    ensures forall e :: e in FirstDeliveries(log) ==> e.WellFormed()
    ensures Fold(split, db, log).cases == ApplyAll(split, db, FirstDeliveries(log)).cases
    ensures ApplyAll(split, db, FirstDeliveries(log)).obligations == Fold(split, db, log).obligations == db.obligations
    decreases |log|
  {
    FirstDeliveriesAreWellFormed(log);
    if log != [] {
      var earlier, e := log[..|log| - 1], log[|log| - 1];
      ExactlyOnceEffect(split, db, earlier);
      LastDelivery(split, db, earlier, e);
      if e.Actionable() && e.WellFormed() && !IsRepeat(earlier, e) {
        ApplyOneMore(split, db, FirstDeliveries(earlier), e);
      }
    }
  }

  /** Every state reached from an empty case table keeps the index and the split. */
  lemma {:induction false} FoldKeeps(split: Split, db: Db, log: seq<Event>)
    requires OneLivePerObligation(db.cases) && ArmsAssigned(split, db.cases)
    ensures var end := Fold(split, db, log);
            OneLivePerObligation(end.cases) && ArmsAssigned(split, end.cases) && Extends(db.cases, end.cases)
    decreases |log|
  {
    if log != [] {
      FoldKeeps(split, db, log[..|log| - 1]);
      IngestKeeps(split, Fold(split, db, log[..|log| - 1]), log[|log| - 1], false);
    }
  }

  // The smallest instance: one open obligation and its failure

  const FAILED := Event(Failure, Some(7), Some(0), Some(0), Some(0), true, 1)
  const ONE_OPEN := Db(map[0 := Obligation(true, 1)], [], {})
}
