/**
 What the consumer can still restore. After a crash, or after a record was quarantined and the
 offset moved past it, the rest of the log is consumed: each theorem says exactly when every
 event is in place at the end, and each loss is exhibited.
*/
module Replay {
  import opened Options
  import opened Opportunity
  import opened Consumer

  predicate NoBadFrom(t: Topic, from: nat) {
    forall i :: from <= i < |t.log| ==> !Bad(t.log[i])
  }

  function Turn(t: Topic, s: State): State {
    Next(t, Next(t, Next(t, s, Deliver(true)), CommitDb), CommitOffset(true))
  }

  /** Consuming the rest of the log with the cache up, committing as it goes. */
  function Resume(t: Topic, s: State): State
    requires Idle(s) && t.commitEvery > 0
    decreases |t.log| - s.position
  {
    if s.position >= |t.log| then s else Resume(t, Turn(t, s))
  }

  /** No key in the cache stands for a record still to come that the tables do not have. */
  ghost predicate NoOrphanKey(t: Topic, s: State) {
    forall i :: s.position <= i < |t.log| && Usable(t.log[i]) && t.log[i].id.value in s.keys ==>
      t.log[i].id.value in s.db.processed
  }

  lemma {:induction false} ResumeRecovers(t: Topic, init: Db, s: State, a: nat)
    requires Idle(s) && t.commitEvery > 0 && NoBadFrom(t, s.position) && NoOrphanKey(t, s)
    requires s.position <= a <= |t.log| && s.db == s.tx == Fold(t.split, init, t.log[..a])
    ensures Resume(t, s).db == Fold(t.split, init, t.log)
    decreases |t.log| - s.position
  {
    if s.position >= |t.log| {
      assert t.log[..a] == t.log;
    } else {
      var e := t.log[s.position];
      assert !Bad(e);
      var next := if s.position == a then a + 1 else a;
      if s.position == a {
        FoldExtend(t.split, init, t.log, a);
      } else {
        assert t.log[..a][s.position] == e;
        RedeliveryIsANoOp(t.split, init, t.log[..a], s.position, false);
      }
      ResumeRecovers(t, init, Turn(t, s), next);
    }
  }

  /** An id the tables lack stays out if whatever carries it is taken for a duplicate. */
  lemma {:induction false} AbsentStaysOut(t: Topic, s: State, id: EventId)
    requires Idle(s) && t.commitEvery > 0 && NoBadFrom(t, s.position)
    requires s.db == s.tx && id !in s.db.processed
    requires forall i :: s.position <= i < |t.log| && Usable(t.log[i]) && t.log[i].id.value == id ==> id in s.keys
    ensures id !in Resume(t, s).db.processed
    decreases |t.log| - s.position
  {
    if s.position < |t.log| {
      assert !Bad(t.log[s.position]);
      AbsentStaysOut(t, Turn(t, s), id);
    }
  }

  lemma FoldHas(split: Split, init: Db, log: seq<Event>, i: nat)
    requires i < |log| && Usable(log[i])
    ensures log[i].id.value in Fold(split, init, log).processed
  {
    FoldExtend(split, init, log, i);
    assert log == log[..i + 1] + log[i + 1..];
    FoldConcat(split, init, log[..i + 1], log[i + 1..]);
    FoldRemembers(split, Fold(split, init, log[..i + 1]), log[i + 1..]);
  }

  /**
   After a crash, consuming the rest of the log restores every event exactly when the cache
   holds no key of a rolled-back event that is still to be redelivered.
  */
  lemma {:induction false} CrashIsSafeExactlyWhenNoKeyIsOrphaned(t: Topic, init: Db, s: State, a: nat, b: nat)
    requires Covers(t, init, s, a, b) && t.commitEvery > 0 && NoBadRecords(t)
    ensures var crashed := Next(t, s, Crash);
            Resume(t, crashed).db == Fold(t.split, init, t.log) <==> NoOrphanKey(t, crashed)
  {
    var crashed := Next(t, s, Crash);
    if NoOrphanKey(t, crashed) {
      ResumeRecovers(t, init, crashed, a);
    } else {
      var i :| crashed.position <= i < |t.log| && Usable(t.log[i]) && t.log[i].id.value in crashed.keys
               && t.log[i].id.value !in crashed.db.processed;
      AbsentStaysOut(t, crashed, t.log[i].id.value);
      FoldHas(t.split, init, t.log, i);
    }
  }

  /** No two records share an id. */
  predicate NoRepeats(t: Topic) {
    forall i, j :: 0 <= i < j < |t.log| && t.log[i].Actionable() && t.log[j].Actionable() ==> t.log[i].id != t.log[j].id
  }

  /** If a stretch of the log changes the tables, one of its events is new to them. */
  lemma {:induction false} SomethingIsNew(split: Split, init: Db, log: seq<Event>, a: nat, b: nat) returns (i: nat)
    requires a <= b <= |log| && Fold(split, init, log[..a]) != Fold(split, init, log[..b])
    ensures a <= i < b && Usable(log[i]) && log[i].id.value !in Fold(split, init, log[..a]).processed
    decreases b
  {
    FoldExtend(split, init, log, b - 1);
    if Fold(split, init, log[..b - 1]) == Fold(split, init, log[..a]) {
      i := b - 1;
    } else {
      i := SomethingIsNew(split, init, log, a, b - 1);
    }
  }

  /** The state in which the loop goes on after quarantining a record and committing. */
  function AfterQuarantine(t: Topic, s: State, cacheUp: bool): State
    requires s.position < |t.log|
  {
    Next(t, Next(t, Handle(t, s, cacheUp).0, CommitDb), CommitOffset(true))
  }

  lemma {:induction false} QuarantineKeepsTheRest(t: Topic, init: Db, s: State, cacheUp: bool, a: nat)
    requires Covers(t, init, s, a, s.position) && Ready(t, s) && Handle(t, s, cacheUp).1.Malformed?
    requires NoRepeats(t) && NoBadFrom(t, s.position + 1) && s.tx == s.db
    ensures Resume(t, AfterQuarantine(t, s, cacheUp)).db == Fold(t.split, init, t.log)
  {
    var after := AfterQuarantine(t, s, cacheUp);
    FoldExtend(t.split, init, t.log, s.position);
    assert NoOrphanKey(t, after);
    ResumeRecovers(t, init, after, s.position + 1);
  }

  lemma {:induction false} QuarantineLosesTheBatch(t: Topic, init: Db, s: State, cacheUp: bool, a: nat)
    requires Covers(t, init, s, a, s.position) && Ready(t, s) && Handle(t, s, cacheUp).1.Malformed?
    requires NoRepeats(t) && NoBadFrom(t, s.position + 1) && s.tx != s.db
    ensures Resume(t, AfterQuarantine(t, s, cacheUp)).db != Fold(t.split, init, t.log)
  {
    var after := AfterQuarantine(t, s, cacheUp);
    var i := SomethingIsNew(t.split, init, t.log, a, s.position);
    AbsentStaysOut(t, after, t.log[i].id.value);
    FoldHas(t.split, init, t.log, i);
  }

  /**
   When a record is quarantined and the next offset commit succeeds, consuming the rest of the
   log ends with every event in place exactly when the open batch had changed nothing.
  */
  lemma {:induction false} BadRecordIsSafeExactlyWhenBatchDidNothing(t: Topic, init: Db, s: State, cacheUp: bool,
                                                                     a: nat)
    requires Covers(t, init, s, a, s.position) && Ready(t, s) && Handle(t, s, cacheUp).1.Malformed?
    requires NoRepeats(t) && NoBadFrom(t, s.position + 1)
    ensures Resume(t, AfterQuarantine(t, s, cacheUp)).db == Fold(t.split, init, t.log) <==> s.tx == s.db
  {
    if s.tx == s.db {
      QuarantineKeepsTheRest(t, init, s, cacheUp, a);
    } else {
      QuarantineLosesTheBatch(t, init, s, cacheUp, a);
    }
  }

  // Both losses, exhibited

  const GARBAGE := Event(Unreadable, None, None, None, None, false, 1)

  lemma FoldOfOne(split: Split)
    ensures |Fold(split, ONE_OPEN, [FAILED]).cases| == 1 && |Fold(split, ONE_OPEN, [FAILED, GARBAGE]).cases| == 1
  {
    assert [FAILED][..0] == [] && [FAILED, GARBAGE][..1] == [FAILED];
    assert Fold(split, ONE_OPEN, [FAILED]) == Absorb(split, ONE_OPEN, FAILED);
    assert Fold(split, ONE_OPEN, [FAILED, GARBAGE]) == Absorb(split, Fold(split, ONE_OPEN, [FAILED]), GARBAGE);
  }

  /** A bad record behind an uncommitted failure: the offset passes both and no case exists. */
  lemma BadRecordLosesABatch(split: Split)
    ensures var t := Topic(split, [FAILED, GARBAGE], 500);
            var read := Next(t, Next(t, Start(ONE_OPEN), Deliver(false)), Deliver(false));
            var end := Next(t, Next(t, read, CommitDb), CommitOffset(true));
            end.offset == 2 && end.db.cases == [] && |Fold(split, ONE_OPEN, t.log).cases| == 1
  {
    FoldOfOne(split);
  }

  /** A crash between the cache write and the commit: the redelivery is taken for a duplicate. */
  lemma OrphanedKeyLosesAnEvent(split: Split)
    ensures var t := Topic(split, [FAILED], 500);
            var crashed := Next(t, Next(t, Start(ONE_OPEN), Deliver(true)), Crash);
            var end := Next(t, Next(t, Next(t, crashed, Deliver(true)), CommitDb), CommitOffset(true));
            end.offset == 1 && end.db.cases == [] && |Fold(split, ONE_OPEN, t.log).cases| == 1
  {
    FoldOfOne(split);
  }
}
