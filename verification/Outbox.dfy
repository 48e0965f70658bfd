/**
 The transactional outbox and its relays. Several relays drain the table at once; each
 holds its batch under row locks, produces it, and marks it published when the flush
 returned without an error report.

 A flush may return before every record has been reported. The relay looks at errors only,
 so the guarantee that a published row is on its topic depends on the flush being complete.
*/
module Outbox {

  type RowId = nat

  datatype Report = Acked | Errored

  /** A batch held by one relay, with the delivery reports received so far. */
  datatype Batch = Batch(ids: seq<RowId>, reports: map<RowId, Report>) {
    predicate HasError() {
      exists id :: id in reports && reports[id].Errored?
    }

    /** The records nothing has been reported about. */
    function Outstanding(): set<RowId> {
      set id | id in ids && id !in reports
    }

    /** Every record of the batch has been acknowledged. */
    predicate Complete() {
      forall id :: id in ids ==> id in reports && reports[id].Acked?
    }
  }

  /**
   Rows are numbered as they commit; `topic` lists the rows the broker has stored. Records a
   relay let go of before anything was reported stay in flight until they arrive or are given up.
  */
  datatype State = State(
    rows: nat,
    published: set<RowId>,
    topic: seq<RowId>,
    relays: map<nat, Batch>,
    inFlight: set<RowId>)

  const INITIAL := State(0, {}, [], map[], {})

  datatype Step =
    | Enqueue
    | Claim(relay: nat, batchSize: nat)
    | Deliver(relay: nat, id: RowId)
    | LoseRecord(relay: nat, id: RowId, stored: bool)
    | MarkPublished(relay: nat)
    | Rollback(relay: nat)
    | Crash(relay: nat)
    | Arrive(id: RowId)
    | Abandon(id: RowId)

  function IdSet(ids: seq<RowId>): set<RowId> {
    set id | id in ids
  }

  predicate HeldBy(s: State, r: nat, id: RowId) {
    r in s.relays && id in s.relays[r].ids
  }

  predicate Held(s: State, id: RowId) {
    exists r :: r in s.relays.Keys && HeldBy(s, r, id)
  }

  /** A relay has been told that the broker stored this row. */
  predicate Confirmed(s: State, r: nat, id: RowId) {
    r in s.relays && id in s.relays[r].reports && s.relays[r].reports[id].Acked?
  }

  /** The unpublished rows no other relay holds, oldest first, up to the batch size. */
  function Claimable(s: State, from: RowId, batchSize: nat): seq<RowId>
    requires from <= s.rows
    decreases s.rows - from
  {
    if from == s.rows || batchSize == 0 then []
    else if from in s.published || Held(s, from) then Claimable(s, from + 1, batchSize)
    else [from] + Claimable(s, from + 1, batchSize - 1)
  }

  predicate Reporting(s: State, r: nat, id: RowId) {
    r in s.relays && id in s.relays[r].ids && id !in s.relays[r].reports
  }

  function Next(s: State, step: Step): State {
    match step
    case Enqueue => s.(rows := s.rows + 1)
    case Claim(r, n) =>
      if r in s.relays || Claimable(s, 0, n) == [] then s
      else s.(relays := s.relays[r := Batch(Claimable(s, 0, n), map[])])
    case Deliver(r, id) =>
      if !Reporting(s, r, id) then s
      else
        var b := s.relays[r];
        s.(topic := s.topic + [id], relays := s.relays[r := b.(reports := b.reports[id := Acked])])
    case LoseRecord(r, id, stored) =>
      if !Reporting(s, r, id) then s
      else
        var b := s.relays[r];
        s.(topic := if stored then s.topic + [id] else s.topic,
           relays := s.relays[r := b.(reports := b.reports[id := Errored])])
    case MarkPublished(r) =>
      if r !in s.relays || s.relays[r].HasError() then s
      else
        s.(published := s.published + IdSet(s.relays[r].ids), relays := s.relays - {r},
           inFlight := s.inFlight + s.relays[r].Outstanding())
    case Rollback(r) =>
      if r !in s.relays || !s.relays[r].HasError() then s
      else s.(relays := s.relays - {r}, inFlight := s.inFlight + s.relays[r].Outstanding())
    case Crash(r) => s.(relays := s.relays - {r})
    case Arrive(id) => if id in s.inFlight then s.(topic := s.topic + [id], inFlight := s.inFlight - {id}) else s
    case Abandon(id) => s.(inFlight := s.inFlight - {id})
  }

  function Run(s: State, steps: seq<Step>): State
    decreases |steps|
  {
    if steps == [] then s else Run(Next(s, steps[0]), steps[1..])
  }

  /** Each relay holds committed, unpublished rows that no other relay holds. */
  ghost predicate Inv(s: State) {
    && (forall r: nat, id: RowId :: HeldBy(s, r, id) ==> id < s.rows && id !in s.published)
    && (forall r: nat, q: nat, id: RowId :: HeldBy(s, r, id) && HeldBy(s, q, id) ==> r == q)
    && (forall r: nat, id: RowId :: Confirmed(s, r, id) ==> id in s.topic)
    && (forall id :: id in s.published ==> id < s.rows)
  }

  /** Every published row is on its topic. */
  ghost predicate NothingLost(s: State) {
    forall id :: id in s.published ==> id in s.topic
  }

  lemma {:induction false} ClaimableRows(s: State, from: RowId, batchSize: nat)
    requires from <= s.rows
    ensures forall id :: id in Claimable(s, from, batchSize) ==>
                           from <= id < s.rows && id !in s.published && !Held(s, id)
    ensures |Claimable(s, from, batchSize)| <= batchSize
    decreases s.rows - from
  {
    if from < s.rows && batchSize > 0 {
      if from in s.published || Held(s, from) {
        ClaimableRows(s, from + 1, batchSize);
      } else {
        ClaimableRows(s, from + 1, batchSize - 1);
      }
    }
  }

  /** Claims go to the oldest rows: nothing free is skipped for something newer. */
  lemma {:induction false} ClaimsOldestFirst(s: State, from: RowId, batchSize: nat, older: RowId, newer: RowId)
    requires from <= older < newer < s.rows
    requires older !in s.published && !Held(s, older)
    requires newer in Claimable(s, from, batchSize)
    ensures older in Claimable(s, from, batchSize)
    decreases s.rows - from
  {
    if older > from {
      if from in s.published || Held(s, from) {
        ClaimsOldestFirst(s, from + 1, batchSize, older, newer);
      } else {
        assert newer in Claimable(s, from + 1, batchSize - 1);
        ClaimsOldestFirst(s, from + 1, batchSize - 1, older, newer);
      }
    }
  }

  /** Committed, unpublished, and in no relay's batch. */
  predicate FreeRow(s: State, id: RowId) {
    id < s.rows && id !in s.published && forall r :: r in s.relays ==> id !in s.relays[r].ids
  }

  lemma FreeMeansUnheld(s: State, id: RowId)
    ensures FreeRow(s, id) <==> id < s.rows && id !in s.published && !Held(s, id)
  {
    if Held(s, id) {
      var r :| r in s.relays.Keys && HeldBy(s, r, id);
    }
    assert forall r :: r in s.relays ==> (HeldBy(s, r, id) <==> id in s.relays[r].ids);
  }

  /** The oldest free rows in order, as many as asked for if there are so many. */
  ghost predicate OldestFree(s: State, batch: seq<RowId>, from: RowId, size: nat) {
    && |batch| <= size
    && (forall i, j :: 0 <= i < j < |batch| ==> batch[i] < batch[j])
    && (forall id :: id in batch ==> from <= id && FreeRow(s, id))
    && (forall id, x :: from <= id && FreeRow(s, id) && id !in batch ==> |batch| == size && (x in batch ==> x < id))
  }

  lemma OldestFreeExtends(s: State, rest: seq<RowId>, from: RowId, size: nat)
    requires size > 0 && FreeRow(s, from) && OldestFree(s, rest, from + 1, size - 1)
    ensures OldestFree(s, [from] + rest, from, size)
  {
    var batch := [from] + rest;
    forall i, j | 0 <= i < j < |batch| ensures batch[i] < batch[j] {
      assert batch[j] == rest[j - 1] && rest[j - 1] in rest;
    }
  }

  /** A claim takes exactly the oldest free rows: it skips none, and stops short only when they run out. */
  lemma {:induction false} ClaimableIsOldestFree(s: State, from: RowId, size: nat)
    requires from <= s.rows
    ensures OldestFree(s, Claimable(s, from, size), from, size)
    decreases s.rows - from
  {
    if from < s.rows && size > 0 {
      FreeMeansUnheld(s, from);
      if from in s.published || Held(s, from) {
        ClaimableIsOldestFree(s, from + 1, size);
      } else {
        ClaimableIsOldestFree(s, from + 1, size - 1);
        OldestFreeExtends(s, Claimable(s, from + 1, size - 1), from, size);
      }
    }
  }

  lemma ReportKeeps(s: State, step: Step)
    requires Inv(s) && (step.Deliver? || step.LoseRecord?)
    ensures Inv(Next(s, step))
  {
    var t := Next(s, step);
    assert forall r: nat, id: RowId :: HeldBy(t, r, id) <==> HeldBy(s, r, id);
    forall r: nat, id: RowId | Confirmed(t, r, id) ensures id in t.topic {
      assert Confirmed(s, r, id) || t.topic == s.topic + [id];
    }
  }

  lemma ClaimKeeps(s: State, r: nat, n: nat)
    requires Inv(s)
    ensures Inv(Next(s, Claim(r, n)))
  {
    var t := Next(s, Claim(r, n));
    ClaimableRows(s, 0, n);
    if t != s {
      var batch := Claimable(s, 0, n);
      assert t.relays[r].ids == batch;
      forall q: nat, id: RowId | HeldBy(t, q, id)
        ensures id < t.rows && id !in t.published && (if q == r then id in batch else HeldBy(s, q, id))
      {
        if q != r {
          assert HeldBy(s, q, id);
        }
      }
      forall q: nat, id: RowId | HeldBy(s, q, id) ensures id !in batch {
        assert Held(s, id);
      }
      assert forall q: nat, id: RowId :: Confirmed(t, q, id) ==> Confirmed(s, q, id);
    }
  }

  /** A relay that lets its batch go, marked or not. */
  lemma LeaveKeeps(s: State, step: Step)
    requires Inv(s) && (step.MarkPublished? || step.Rollback? || step.Crash?)
    ensures Inv(Next(s, step))
  {
    var t := Next(s, step);
    assert forall r: nat, id: RowId :: HeldBy(t, r, id) ==> HeldBy(s, r, id);
    assert forall r: nat, id: RowId :: Confirmed(t, r, id) ==> Confirmed(s, r, id);
    if step.MarkPublished? {
      forall r: nat, id: RowId | HeldBy(t, r, id) ensures id !in t.published {
        assert HeldBy(s, step.relay, id) ==> step.relay == r;
      }
      forall id | id in t.published ensures id < t.rows {
        assert id in s.published || HeldBy(s, step.relay, id);
      }
    }
  }

  lemma FlightKeeps(s: State, step: Step)
    requires Inv(s) && (step.Arrive? || step.Abandon?)
    ensures Inv(Next(s, step))
  {
    var t := Next(s, step);
    assert s.topic <= t.topic;
    assert forall r: nat, id: RowId :: HeldBy(t, r, id) <==> HeldBy(s, r, id);
    assert forall r: nat, id: RowId :: Confirmed(t, r, id) <==> Confirmed(s, r, id);
  }

  lemma StepKeeps(s: State, step: Step)
    requires Inv(s)
    ensures Inv(Next(s, step))
  {
    match step
    case Enqueue =>
      assert forall r: nat, id: RowId :: HeldBy(Next(s, step), r, id) <==> HeldBy(s, r, id);
      assert forall r: nat, id: RowId :: Confirmed(Next(s, step), r, id) <==> Confirmed(s, r, id);
    case Claim(r, n) => ClaimKeeps(s, r, n);
    case Deliver(_, _) => ReportKeeps(s, step);
    case LoseRecord(_, _, _) => ReportKeeps(s, step);
    case Arrive(_) => FlightKeeps(s, step);
    case Abandon(_) => FlightKeeps(s, step);
    case _ => LeaveKeeps(s, step);
  }

  /** In every reachable state no row is held by two relays, and only unpublished rows are held. */
  lemma {:induction false} RunKeeps(s: State, steps: seq<Step>)
    requires Inv(s)
    ensures Inv(Run(s, steps))
    decreases |steps|
  {
    if steps != [] {
      StepKeeps(s, steps[0]);
      RunKeeps(Next(s, steps[0]), steps[1..]);
    }
  }

  /** Whatever relays do and wherever they crash, they never hold or publish the same row twice over. */
  lemma NoRowIsHeldTwice(steps: seq<Step>, r: nat, q: nat, id: RowId)
    ensures var s := Run(INITIAL, steps);
            && (HeldBy(s, r, id) ==> id < s.rows && id !in s.published)
            && (HeldBy(s, r, id) && HeldBy(s, q, id) ==> r == q)
            && (Confirmed(s, r, id) ==> id in s.topic)
  {
    RunKeeps(INITIAL, steps);
  }

  lemma MarkingStoredLosesNothing(s: State, r: nat)
    requires NothingLost(s) && r in s.relays && forall id :: id in s.relays[r].ids ==> id in s.topic
    ensures NothingLost(Next(s, MarkPublished(r)))
  {
  }

  /** The run never marks a batch before every record of it was reported. */
  ghost predicate FlushesComplete(s: State, steps: seq<Step>)
    decreases |steps|
  {
    steps != [] ==>
      && (steps[0].MarkPublished? && steps[0].relay in s.relays && !s.relays[steps[0].relay].HasError() ==>
            s.relays[steps[0].relay].Complete())
      && FlushesComplete(Next(s, steps[0]), steps[1..])
  }

  lemma OtherStepsKeepMarks(s: State, step: Step)
    requires NothingLost(s)
    requires step.MarkPublished? ==> step.relay !in s.relays || s.relays[step.relay].HasError()
    ensures NothingLost(Next(s, step)) && Next(s, step).published == s.published
  {
    var t := Next(s, step);
    assert s.topic <= t.topic;
    forall id | id in t.published ensures id in t.topic {
      assert id in s.topic;
    }
  }

  /** At-least-once: if flushes complete, every committed row is unpublished or on its topic. */
  lemma {:induction false} CompleteFlushesLoseNothing(s: State, steps: seq<Step>)
    requires Inv(s) && NothingLost(s) && FlushesComplete(s, steps)
    ensures NothingLost(Run(s, steps))
    decreases |steps|
  {
    if steps != [] {
      var step := steps[0];
      StepKeeps(s, step);
      if step.MarkPublished? && step.relay in s.relays && !s.relays[step.relay].HasError() {
        forall id | id in s.relays[step.relay].ids ensures id in s.topic {
          assert Confirmed(s, step.relay, id);
        }
        MarkingStoredLosesNothing(s, step.relay);
      } else {
        OtherStepsKeepMarks(s, step);
      }
      CompleteFlushesLoseNothing(Next(s, step), steps[1..]);
    }
  }

  /** Published, on no topic, and no longer on its way to one. */
  ghost predicate Lost(s: State, id: RowId) {
    id in s.published && id !in s.topic && id !in s.inFlight
  }

  lemma LostStaysLost(s: State, step: Step, id: RowId)
    requires Inv(s) && Lost(s, id)
    ensures Lost(Next(s, step), id)
  {
    assert forall r: nat :: !HeldBy(s, r, id);
    if step.Deliver? || step.LoseRecord? || step.MarkPublished? || step.Rollback? {
      assert !HeldBy(s, step.relay, id);
    }
  }

  /** No relay ever looks at a published row again, so what is lost is lost for good. */
  lemma {:induction false} LostForGood(s: State, steps: seq<Step>, id: RowId)
    requires Inv(s) && Lost(s, id)
    ensures Lost(Run(s, steps), id)
    decreases |steps|
  {
    if steps != [] {
      StepKeeps(s, steps[0]);
      LostStaysLost(s, steps[0], id);
      LostForGood(Next(s, steps[0]), steps[1..], id);
    }
  }

  /** One row, claimed, and marked after a flush that returned with nothing reported. */
  function TimedOut(): State {
    Next(Next(Next(INITIAL, Enqueue), Claim(0, 500)), MarkPublished(0))
  }

  lemma TimedOutState()
    ensures var s := TimedOut();
            s.rows == 1 && s.published == {0} && s.topic == [] && s.relays == map[] && s.inFlight == {0}
  {
    var enqueued := Next(INITIAL, Enqueue);
    assert !Held(enqueued, 0);
    assert Claimable(enqueued, 1, 499) == [];
    assert Claimable(enqueued, 0, 500) == [0];
    var claimed := Next(enqueued, Claim(0, 500));
    assert claimed.relays == map[0 := Batch([0], map[])];
    assert IdSet([0]) == {0} && Batch([0], map[]).Outstanding() == {0};
  }

  /**
   The row is published and on no topic. If its record arrives after all nothing is lost; if the
   producer gives it up, no later run of any relays ever puts it on the topic.
  */
  lemma SilentTimeoutLosesARow(steps: seq<Step>)
    ensures !NothingLost(TimedOut()) && NothingLost(Next(TimedOut(), Arrive(0)))
    ensures Lost(Run(Next(TimedOut(), Abandon(0)), steps), 0)
  {
    TimedOutState();
    var abandoned := Next(TimedOut(), Abandon(0));
    assert Next(TimedOut(), Arrive(0)).topic == [0];
    assert 0 in TimedOut().published;
    LostForGood(abandoned, steps, 0);
  }

  // One relay's drain

  datatype RelayStats = RelayStats(published: nat, failed: nat)

  /** The reports that arrive for a list of rows. */
  function Reports(ids: seq<RowId>, deliveries: map<RowId, Report>): map<RowId, Report> {
    map id | id in ids && id in deliveries :: deliveries[id]
  }

  /** Some record of the batch is reported as failed. */
  predicate Errs(ids: seq<RowId>, deliveries: map<RowId, Report>) {
    exists id :: id in ids && id in deliveries && deliveries[id].Errored?
  }

  lemma FailsWhenErrs(ids: seq<RowId>, deliveries: map<RowId, Report>)
    ensures Fails(ids, deliveries) <==> Errs(ids, deliveries)
  {
    var reports := Reports(ids, deliveries);
    if Errs(ids, deliveries) {
      var id :| id in ids && id in deliveries && deliveries[id].Errored?;
      assert id in reports && reports[id].Errored?;
    }
    if Fails(ids, deliveries) {
      var id :| id in reports && reports[id].Errored?;
      assert id in ids && id in deliveries;
    }
  }

  predicate Fails(ids: seq<RowId>, deliveries: map<RowId, Report>) {
    Batch(ids, Reports(ids, deliveries)).HasError()
  }

  /** Of the records reported on, the broker has stored the acknowledged ones and some of the others. */
  predicate Stored(id: RowId, deliveries: map<RowId, Report>, stored: set<RowId>) {
    id in deliveries && (deliveries[id].Acked? || id in stored)
  }

  ghost predicate TopicGains(before: seq<RowId>, after: seq<RowId>, ids: seq<RowId>, deliveries: map<RowId, Report>,
                             stored: set<RowId>)
  {
    forall id :: id in after <==> id in before || (id in ids && Stored(id, deliveries, stored))
  }

  lemma ReportsExtend(ids: seq<RowId>, id: RowId, deliveries: map<RowId, Report>)
    ensures Reports(ids + [id], deliveries)
         == if id in deliveries then Reports(ids, deliveries)[id := deliveries[id]] else Reports(ids, deliveries)
  {
  }

  lemma {:induction false} ClaimableDistinct(s: State, from: RowId, batchSize: nat)
    requires from <= s.rows
    ensures |IdSet(Claimable(s, from, batchSize))| == |Claimable(s, from, batchSize)|
    decreases s.rows - from
  {
    if from < s.rows && batchSize > 0 {
      if from in s.published || Held(s, from) {
        ClaimableDistinct(s, from + 1, batchSize);
      } else {
        ClaimableDistinct(s, from + 1, batchSize - 1);
        ClaimableRows(s, from + 1, batchSize - 1);
        var rest := Claimable(s, from + 1, batchSize - 1);
        assert IdSet([from] + rest) == {from} + IdSet(rest);
      }
    }
  }

  lemma ClaimedAreNew(s: State, batchSize: nat)
    ensures var batch := Claimable(s, 0, batchSize);
            |s.published + IdSet(batch)| == |s.published| + |batch|
  {
    var batch := Claimable(s, 0, batchSize);
    ClaimableRows(s, 0, batchSize);
    ClaimableDistinct(s, 0, batchSize);
    assert s.published * IdSet(batch) == {};
  }

  /** What can be claimed depends on the marks and on who holds what, not on the topic. */
  lemma {:induction false} SameClaims(s: State, t: State, from: RowId, batchSize: nat)
    requires from <= s.rows && s.rows == t.rows && s.published == t.published && s.relays == t.relays
    ensures Claimable(s, from, batchSize) == Claimable(t, from, batchSize)
    decreases s.rows - from
  {
    if from < s.rows && batchSize > 0 {
      assert Held(s, from) <==> Held(t, from) by {
        assert forall r: nat :: HeldBy(s, r, from) <==> HeldBy(t, r, from);
      }
      SameClaims(s, t, from + 1, batchSize);
      SameClaims(s, t, from + 1, batchSize - 1);
    }
  }

  lemma DrainLosesExactlyWhatIsOutstanding(before: State, after: State, batch: seq<RowId>,
                                           deliveries: map<RowId, Report>, stored: set<RowId>)
    requires after.published == before.published + if Fails(batch, deliveries) then {} else IdSet(batch)
    requires TopicGains(before.topic, after.topic, batch, deliveries, stored)
    ensures NothingLost(before) ==>
              (NothingLost(after) <==>
                 Fails(batch, deliveries) || forall id :: id in batch ==> id in deliveries || id in before.topic)
  {
    if !Fails(batch, deliveries) {
      forall id | id in batch && id in deliveries ensures deliveries[id].Acked? {
        assert id in Reports(batch, deliveries);
      }
      if NothingLost(after) {
        forall id | id in batch ensures id in deliveries || id in before.topic {
          assert id in after.published;
        }
      }
    }
  }

  /** Whether a drain would publish anything. */
  predicate Publishes(s: State, batchSize: nat, deliveries: map<RowId, Report>) {
    Claimable(s, 0, batchSize) != [] && !Errs(Claimable(s, 0, batchSize), deliveries)
  }

  /** A drain that published its batch. */
  ghost predicate Drains(before: State, after: State, batchSize: nat, deliveries: map<RowId, Report>,
                         stored: set<RowId>)
  {
    var batch := Claimable(before, 0, batchSize);
    && Publishes(before, batchSize, deliveries)
    && after.rows == before.rows && after.relays == before.relays
    && after.published == before.published + IdSet(batch)
    && TopicGains(before.topic, after.topic, batch, deliveries, stored)
  }

  /** A drain that published nothing: what it could not publish stays claimable and is reported failed. */
  ghost predicate Halts(before: State, after: State, batchSize: nat, deliveries: map<RowId, Report>,
                        stored: set<RowId>, failed: nat)
  {
    var batch := Claimable(before, 0, batchSize);
    && !Publishes(before, batchSize, deliveries)
    && after.rows == before.rows && after.relays == before.relays && after.published == before.published
    && TopicGains(before.topic, after.topic, batch, deliveries, stored)
    && Claimable(after, 0, batchSize) == batch && failed == |batch|
  }

  /** The states between drains that each published their batch. */
  ghost predicate Series(passed: seq<State>, batchSize: nat, deliveries: nat -> map<RowId, Report>,
                         stored: set<RowId>)
  {
    forall n :: 0 < n < |passed| ==> Drains(passed[n - 1], passed[n], batchSize, deliveries(n - 1), stored)
  }

  lemma SeriesGrows(passed: seq<State>, next: State, batchSize: nat, deliveries: nat -> map<RowId, Report>,
                    stored: set<RowId>)
    requires passed != [] && Series(passed, batchSize, deliveries, stored)
    requires Drains(passed[|passed| - 1], next, batchSize, deliveries(|passed| - 1), stored)
    ensures Series(passed + [next], batchSize, deliveries, stored)
  {
  }

  class OutboxRelay {
    const relay: nat
    var state: State

    constructor (relay: nat, state: State)
      ensures this.relay == relay && this.state == state
    {
      this.relay, this.state := relay, state;
    }

    method Perform(step: Step)
      requires Inv(state)
      modifies this
      ensures Inv(state) && state == Next(old(state), step)
    {
      StepKeeps(state, step);
      state := Next(state, step);
    }

    /** Produces one record of the held batch; its report, if there is one, is recorded. */
    method ProduceOne(rows: seq<RowId>, i: nat, deliveries: map<RowId, Report>, stored: set<RowId>)
      requires Inv(state) && i < |rows| && relay in state.relays
      requires state.relays[relay] == Batch(rows, Reports(rows[..i], deliveries))
      modifies this
      ensures Inv(state)
      ensures var reported := Batch(rows, Reports(rows[..i + 1], deliveries));
              state == old(state).(topic := state.topic, relays := old(state).relays[relay := reported])
      ensures state.topic == old(state).topic
                             + if Stored(rows[i], deliveries, stored) && rows[i] !in rows[..i] then [rows[i]] else []
    {
      var id := rows[i];
      assert rows[..i + 1] == rows[..i] + [id];
      ReportsExtend(rows[..i], id, deliveries);
      if id in deliveries && id !in state.relays[relay].reports {
        Perform(if deliveries[id].Acked? then Deliver(relay, id) else LoseRecord(relay, id, id in stored));
      } else {
        assert Reports(rows[..i + 1], deliveries) == Reports(rows[..i], deliveries);
        assert state.relays == state.relays[relay := state.relays[relay]];
      }
    }

    /** Produces every record of the held batch and collects what the broker reports. */
    method Produce(rows: seq<RowId>, deliveries: map<RowId, Report>, stored: set<RowId>)
      requires Inv(state) && relay in state.relays && state.relays[relay] == Batch(rows, map[])
      modifies this
      ensures Inv(state)
      ensures state == old(state).(topic := state.topic,
                                   relays := old(state).relays[relay := Batch(rows, Reports(rows, deliveries))])
      ensures TopicGains(old(state).topic, state.topic, rows, deliveries, stored)
    {
      assert Reports(rows[..0], deliveries) == map[];
      var i := 0;
      while i < |rows|
        invariant 0 <= i <= |rows|
        invariant Inv(state)
        invariant var reported := Batch(rows, Reports(rows[..i], deliveries));
                  state == old(state).(topic := state.topic, relays := old(state).relays[relay := reported])
        invariant TopicGains(old(state).topic, state.topic, rows[..i], deliveries, stored)
      {
        assert rows[..i + 1] == rows[..i] + [rows[i]];
        ProduceOne(rows, i, deliveries, stored);
        i := i + 1;
      }
      assert rows[..i] == rows;
    }

    /**
     Publishes one batch; `deliveries` is what the broker reports before the flush returns. If
     nothing was lost before, nothing is missing from the topic afterwards exactly when the
     drain failed or the flush left no record outstanding that the topic does not hold already.
    */
    method Drain(batchSize: nat, deliveries: map<RowId, Report>, stored: set<RowId>) returns (stats: RelayStats)
      requires Inv(state) && relay !in state.relays
      modifies this
      ensures Inv(state) && state.relays == old(state).relays && state.rows == old(state).rows
      ensures var batch := Claimable(old(state), 0, batchSize);
              && state.published == old(state).published + (if Errs(batch, deliveries) then {} else IdSet(batch))
              && stats == (if Errs(batch, deliveries) then RelayStats(0, |batch|) else RelayStats(|batch|, 0))
              && TopicGains(old(state).topic, state.topic, batch, deliveries, stored)
              && state.inFlight == old(state).inFlight + (set id | id in batch && id !in deliveries)
      ensures NothingLost(old(state)) ==>
                var batch := Claimable(old(state), 0, batchSize);
                NothingLost(state) <==>
                  Errs(batch, deliveries) || forall id :: id in batch ==> id in deliveries || id in old(state).topic
    {
      var rows := Claimable(state, 0, batchSize);
      FailsWhenErrs(rows, deliveries);
      Perform(Claim(relay, batchSize));
      if rows == [] {
        return RelayStats(0, 0);
      }
      Produce(rows, deliveries, stored);
      assert state.relays[relay].Outstanding() == set id | id in rows && id !in deliveries;
      if state.relays[relay].HasError() {
        Perform(Rollback(relay));
        stats := RelayStats(0, |rows|);
      } else {
        Perform(MarkPublished(relay));
        stats := RelayStats(|rows|, 0);
      }
      assert state.relays == old(state).relays;
      DrainLosesExactlyWhatIsOutstanding(old(state), state, rows, deliveries, stored);
    }

    /** One drain of several: it publishes its batch, or it halts the series. */
    method DrainNext(batchSize: nat, deliveries: map<RowId, Report>, stored: set<RowId>) returns (stats: RelayStats)
      requires Inv(state) && relay !in state.relays
      modifies this
      ensures Inv(state)
      ensures stats.published > 0 ==>
                && Drains(old(state), state, batchSize, deliveries, stored) && stats.failed == 0
                && |state.published| == |old(state).published| + stats.published
      ensures stats.published == 0 ==> Halts(old(state), state, batchSize, deliveries, stored, stats.failed)
    {
      ghost var before := state;
      ClaimedAreNew(before, batchSize);
      stats := Drain(batchSize, deliveries, stored);
      if stats.published == 0 {
        SameClaims(before, state, 0, batchSize);
      }
    }

    /**
     Drains batch after batch until one publishes nothing, and adds up what each reported:
     `batches` drains in a row published their batch, and the one after them, if it came to
     that, did not.
    */
    method DrainAll(batchSize: nat, maxBatches: nat, deliveries: nat -> map<RowId, Report>, stored: set<RowId>)
      returns (total: RelayStats, batches: nat, ghost passed: seq<State>)
      requires Inv(state) && relay !in state.relays
      modifies this
      ensures Inv(state) && state.relays == old(state).relays && state.rows == old(state).rows
      ensures |passed| == batches + 1 && passed[0] == old(state) && Series(passed, batchSize, deliveries, stored)
      ensures if batches < maxBatches
                then Halts(passed[batches], state, batchSize, deliveries(batches), stored, total.failed)
              else batches == maxBatches && state == passed[batches] && total.failed == 0
      ensures old(state).published <= state.published
      ensures |state.published| == |old(state).published| + total.published
    {
      total, batches, passed := RelayStats(0, 0), 0, [state];
      while batches < maxBatches
        invariant batches <= maxBatches && total.failed == 0
        invariant Inv(state) && state.relays == old(state).relays && state.rows == old(state).rows
        invariant |passed| == batches + 1 && passed[0] == old(state) && passed[batches] == state
        invariant Series(passed, batchSize, deliveries, stored)
        invariant old(state).published <= state.published
        invariant |state.published| == |old(state).published| + total.published
        decreases maxBatches - batches
      {
        var stats := DrainNext(batchSize, deliveries(batches), stored);
        total := RelayStats(total.published + stats.published, total.failed + stats.failed);
        if stats.published == 0 {
          return;
        }
        SeriesGrows(passed, state, batchSize, deliveries, stored);
        passed := passed + [state];
        batches := batches + 1;
      }
    }
  }
}
