/**
 The consumer loop: records are ingested into an open transaction, the transaction commits
 in batches, and only then does the offset advance. Crashes, rebalances, failed offset
 commits and a dedup cache that outlives a rollback may come between any two steps.

 A malformed record rolls the open batch back but does not rewind the consumer, and the next
 offset commit passes the discarded events: what is guaranteed depends on the batch having
 been empty.
*/
module Consumer {
  import opened Opportunity

  /** One partition, the arm split, and how many messages make a batch. */
  datatype Topic = Topic(split: Split, log: seq<Event>, commitEvery: nat)

  /** `last` is the offset after the last message handled; `keys` is the dedup cache. */
  datatype State = State(
    db: Db,
    tx: Db,
    keys: set<EventId>,
    offset: nat,
    position: nat,
    last: nat,
    pending: nat,
    flushed: bool)

  datatype Step =
    | Deliver(cacheUp: bool)
    | CommitDb
    | CommitOffset(stuck: bool)
    | Rebalance
    | Crash
    | ExpireKey(id: EventId)

  function Start(db: Db): State {
    State(db, db, {}, 0, 0, 0, 0, false)
  }

  /** A record goes to the dead-letter queue if it cannot be read or cannot be acted on. */
  function Receive(split: Split, tx: Db, e: Event, seen: bool): (Db, Verdict) {
    if e.kind.Unreadable? then (tx, Malformed) else Ingest(split, tx, e, seen)
  }

  predicate Ready(t: Topic, s: State) {
    !s.flushed && s.position < |t.log| && s.pending < t.commitEvery
  }

  predicate Seen(s: State, e: Event, cacheUp: bool) {
    cacheUp && e.Actionable() && e.id.value in s.keys
  }

  function Handle(t: Topic, s: State, cacheUp: bool): (State, Verdict)
    requires s.position < |t.log|
  {
    var e := t.log[s.position];
    var (tx, verdict) := Receive(t.split, s.tx, e, Seen(s, e, cacheUp));
    var next := s.position + 1;
    var keys := if cacheUp && e.Actionable() then s.keys + {e.id.value} else s.keys;
    if verdict.Malformed? then
      (s.(tx := s.db, keys := keys, position := next, last := next, pending := 1), verdict)
    else
      (s.(tx := tx, keys := keys, position := next, last := next, pending := s.pending + 1), verdict)
  }

  function Next(t: Topic, s: State, step: Step): State {
    match step
    case Deliver(cacheUp) => if Ready(t, s) then Handle(t, s, cacheUp).0 else s
    case CommitDb => if s.flushed || s.pending == 0 then s else s.(db := s.tx, flushed := true)
    case CommitOffset(stuck) =>
      if !s.flushed then s
      else s.(offset := if stuck then s.last else s.offset, pending := 0, flushed := false)
    case Rebalance => s.(position := s.offset)
    case Crash => State(s.db, s.db, s.keys, s.offset, s.offset, s.offset, 0, false)
    case ExpireKey(id) => s.(keys := s.keys - {id})
  }

  function Run(t: Topic, s: State, steps: seq<Step>): State
    decreases |steps|
  {
    if steps == [] then s else Run(t, Next(t, s, steps[0]), steps[1..])
  }

  /**
   What can go wrong between two records: a rebalance reads again from the committed offset, a
   crash also drops the open transaction but not the cache, and a cached key may expire.
  */
  lemma LossesHappen(t: Topic, s: State, id: EventId)
    ensures Next(t, s, Rebalance) == s.(position := s.offset)
    ensures Next(t, s, Crash).(position := s.position, last := s.last)
         == s.(tx := s.db, pending := 0, flushed := false)
    ensures Next(t, s, Crash).position == Next(t, s, Crash).last == s.offset
    ensures Next(t, s, ExpireKey(id)) == s.(keys := s.keys - {id})
  {
  }

  lemma {:induction false} RunConcat(t: Topic, s: State, a: seq<Step>, b: seq<Step>)
    ensures Run(t, s, a + b) == Run(t, Run(t, s, a), b)
    decreases |a|
  {
    if a == [] {
      assert a + b == b;
    } else {
      assert (a + b)[1..] == a[1..] + b;
      RunConcat(t, Next(t, s, a[0]), a[1..], b);
    }
  }

  // The invariant

  predicate Usable(e: Event) {
    e.Actionable() && e.WellFormed()
  }

  predicate Bad(e: Event) {
    e.kind.Unreadable? || (e.Actionable() && !e.WellFormed())
  }

  /** Every key in the cache that a usable record carries is recorded in the given tables. */
  ghost predicate KeysBacked(t: Topic, keys: set<EventId>, db: Db) {
    forall i :: 0 <= i < |t.log| && Usable(t.log[i]) && t.log[i].id.value in keys ==> t.log[i].id.value in db.processed
  }

  /** The committed tables fold the first `a` records, the open transaction the first `b`. */
  ghost predicate Covers(t: Topic, init: Db, s: State, a: nat, b: nat) {
    && s.offset <= a <= b <= |t.log| && s.position <= b && s.last <= b
    && s.db == Fold(t.split, init, t.log[..a])
    && s.tx == Fold(t.split, init, t.log[..b])
    && (s.flushed ==> a == b)
    && KeysBacked(t, s.keys, s.tx)
  }

  ghost predicate Covered(t: Topic, init: Db, s: State) {
    exists a: nat, b: nat :: Covers(t, init, s, a, b)
  }

  /** The two steps that can lose events, and when each of them does not. */
  ghost predicate Safe(t: Topic, s: State, step: Step) {
    && (step.Crash? ==> KeysBacked(t, s.keys, s.db))
    && (step.Deliver? && Ready(t, s) && Bad(t.log[s.position]) ==>
          s.tx == s.db && KeysBacked(t, Handle(t, s, step.cacheUp).0.keys, s.db))
  }

  lemma DeliverKeeps(t: Topic, init: Db, s: State, cacheUp: bool, a: nat, b: nat)
    requires Covers(t, init, s, a, b) && Ready(t, s) && Safe(t, s, Deliver(cacheUp))
    ensures Covers(t, init, Handle(t, s, cacheUp).0, a, if s.position == b then b + 1 else b)
  {
    var e := t.log[s.position];
    assert Absorb(t.split, s.tx, e) == Fold(t.split, init, t.log[..if s.position == b then b + 1 else b]) by {
      if s.position == b {
        FoldExtend(t.split, init, t.log, b);
      } else {
        assert t.log[..b][s.position] == e;
        RedeliveryIsANoOp(t.split, init, t.log[..b], s.position, false);
      }
    }
    ReceiveAbsorbs(t, s, cacheUp);
  }

  /** Handling a message the cache answers truthfully for has the effect of absorbing it. */
  lemma ReceiveAbsorbs(t: Topic, s: State, cacheUp: bool)
    requires s.position < |t.log| && KeysBacked(t, s.keys, s.tx) && Safe(t, s, Deliver(cacheUp)) && Ready(t, s)
    ensures Handle(t, s, cacheUp).0.tx == Absorb(t.split, s.tx, t.log[s.position])
    ensures KeysBacked(t, Handle(t, s, cacheUp).0.keys, Handle(t, s, cacheUp).0.tx)
  {
  }

  lemma StepKeeps(t: Topic, init: Db, s: State, step: Step)
    requires Covered(t, init, s) && Safe(t, s, step)
    ensures Covered(t, init, Next(t, s, step))
  {
    var a: nat, b: nat :| Covers(t, init, s, a, b);
    match step
    case Deliver(cacheUp) =>
      if Ready(t, s) {
        DeliverKeeps(t, init, s, cacheUp, a, b);
      }
    case CommitDb =>
      assert Next(t, s, step) == s || Covers(t, init, Next(t, s, step), b, b);
    case Crash =>
      assert Covers(t, init, Next(t, s, step), a, a);
    case _ =>
      assert Covers(t, init, Next(t, s, step), a, b);
  }

  /** Every step of the run is safe where it happens. */
  ghost predicate Orderly(t: Topic, s: State, steps: seq<Step>)
    decreases |steps|
  {
    steps != [] ==> Safe(t, s, steps[0]) && Orderly(t, Next(t, s, steps[0]), steps[1..])
  }

  /**
   From any covered state, with the cache and bad records too, a run stays covered if each
   crash and each bad record is safe where it happens.
  */
  lemma {:induction false} OrderlyRunsStayCovered(t: Topic, init: Db, s: State, steps: seq<Step>)
    requires Covered(t, init, s) && Orderly(t, s, steps)
    ensures Covered(t, init, Run(t, s, steps))
    decreases |steps|
  {
    if steps != [] {
      StepKeeps(t, init, s, steps[0]);
      OrderlyRunsStayCovered(t, init, Next(t, s, steps[0]), steps[1..]);
    }
  }

  /** The committed tables are the fold of a log prefix that the committed offset never passes. */
  ghost predicate NothingSkipped(t: Topic, init: Db, s: State) {
    exists a: nat :: s.offset <= a <= |t.log| && s.db == Fold(t.split, init, t.log[..a])
  }

  /** The loop starts covered. */
  lemma StartIsCovered(t: Topic, init: Db)
    ensures Covered(t, init, Start(init))
  {
    assert t.log[..0] == [];
    assert Covers(t, init, Start(init), 0, 0);
  }

  lemma CoveredSkipsNothing(t: Topic, init: Db, s: State)
    requires Covered(t, init, s)
    ensures NothingSkipped(t, init, s)
  {
    var a: nat, b: nat :| Covers(t, init, s, a, b);
    assert s.offset <= a <= |t.log|;
  }

  predicate DurableOnly(steps: seq<Step>) {
    forall i :: 0 <= i < |steps| && steps[i].Deliver? ==> !steps[i].cacheUp
  }

  predicate NoBadRecords(t: Topic) {
    forall i :: 0 <= i < |t.log| ==> !Bad(t.log[i])
  }

  lemma {:induction false} DurableRunsAreOrderly(t: Topic, s: State, steps: seq<Step>)
    requires s.keys == {} && DurableOnly(steps) && NoBadRecords(t)
    ensures Orderly(t, s, steps)
    decreases |steps|
  {
    if steps != [] {
      DurableRunsAreOrderly(t, Next(t, s, steps[0]), steps[1..]);
    }
  }

  /**
   At-least-once ingest refines exactly-once. With the durable layer alone, whatever crashes,
   rebalances, failed offset commits and redeliveries a run contains, no event is skipped.
  */
  lemma {:induction false} DurableIngestLosesNothing(t: Topic, init: Db, steps: seq<Step>)
    requires DurableOnly(steps) && NoBadRecords(t)
    ensures NothingSkipped(t, init, Run(t, Start(init), steps))
  {
    StartIsCovered(t, init);
    DurableRunsAreOrderly(t, Start(init), steps);
    OrderlyRunsStayCovered(t, init, Start(init), steps);
    CoveredSkipsNothing(t, init, Run(t, Start(init), steps));
  }

  predicate Idle(s: State) {
    s.pending == 0 && !s.flushed
  }

  // The loop

  datatype Totals = Totals(opening: nat, resolved: nat, duplicate: nat, superseded: nat, ignored: nat, malformed: nat) {
    /** The heading a verdict is counted under. */
    function Of(v: Verdict): nat {
      match v
      case Opened => opening
      case Resolved => resolved
      case Duplicate => duplicate
      case Superseded => superseded
      case Ignored => ignored
      case Malformed => malformed
    }

    function Plus(v: Verdict): (r: Totals)
      ensures forall w :: r.Of(w) == Of(w) + if w == v then 1 else 0
    {
      match v
      case Opened => this.(opening := opening + 1)
      case Resolved => this.(resolved := resolved + 1)
      case Duplicate => this.(duplicate := duplicate + 1)
      case Superseded => this.(superseded := superseded + 1)
      case Ignored => this.(ignored := ignored + 1)
      case Malformed => this.(malformed := malformed + 1)
    }

    function Sum(): nat {
      opening + resolved + duplicate + superseded + ignored + malformed
    }
  }

  /** What cannot be read is malformed, and what is malformed cannot be read or acted on. */
  ghost predicate Quarantines(e: Event, v: Verdict) {
    (e.kind.Unreadable? ==> v.Malformed?) && (v.Malformed? ==> Bad(e))
  }

  /** What one poll brings: nothing, or the next message while the cache is up or down. */
  datatype Poll = Nothing | Message(cacheUp: bool)

  /** How many polls bring a message. */
  function Messages(polls: seq<Poll>): nat {
    if polls == [] then 0 else Messages(polls[..|polls| - 1]) + if polls[|polls| - 1].Message? then 1 else 0
  }

  /** Every message polled is taken while there are records left. */
  function Taken(left: int, polls: seq<Poll>): nat {
    if left <= 0 then 0 else if Messages(polls) <= left then Messages(polls) else left
  }

  predicate NoneBad(t: Topic, from: nat, to: nat) {
    forall i :: from <= i < to && i < |t.log| ==> !Bad(t.log[i])
  }

  /** If nothing bad came by, the open transaction holds exactly what the records since the start amount to. */
  ghost predicate Absorbed(t: Topic, start: State, s: State) {
    start.position <= s.position <= |t.log| && NoneBad(t, start.position, s.position)
    && KeysBacked(t, start.keys, start.tx) ==>
      && s.tx == Fold(t.split, start.tx, t.log[start.position..s.position])
      && KeysBacked(t, s.keys, s.tx)
  }

  lemma AbsorbedOneMore(t: Topic, start: State, before: State, after: State)
    requires Absorbed(t, start, before) && start.position <= before.position < |t.log|
    requires after.position == before.position + 1
    requires !Bad(t.log[before.position]) && KeysBacked(t, before.keys, before.tx) ==>
               && after.tx == Absorb(t.split, before.tx, t.log[before.position])
               && KeysBacked(t, after.keys, after.tx)
    ensures Absorbed(t, start, after)
  {
    if NoneBad(t, start.position, after.position) {
      assert !Bad(t.log[before.position]);
      var some := t.log[start.position..before.position];
      assert t.log[start.position..before.position + 1] == some + [t.log[before.position]];
      assert (some + [t.log[before.position]])[..|some|] == some;
    }
  }

  class ConsumerLoop {
    const topic: Topic
    var state: State

    constructor (topic: Topic, state: State)
      ensures this.topic == topic && this.state == state
    {
      this.topic, this.state := topic, state;
    }

    /** The database first, the offset after it. */
    method Flush(stuck: bool) returns (ghost steps: seq<Step>)
      requires !state.flushed && state.pending > 0
      modifies this
      ensures state == Run(topic, old(state), steps)
      ensures state == old(state).(db := old(state).tx, pending := 0,
                                   offset := if stuck then old(state).last else old(state).offset)
    {
      steps := [CommitDb, CommitOffset(stuck)];
      ghost var committed := Next(topic, state, CommitDb);
      assert steps[1..] == [CommitOffset(stuck)] && steps[1..][1..] == [];
      assert Run(topic, committed, steps[1..]) == Next(topic, committed, CommitOffset(stuck));
      state := Next(topic, state, CommitDb);
      state := Next(topic, state, CommitOffset(stuck));
    }

    /** Handles the next message inside the open transaction. */
    method Take(cacheUp: bool) returns (verdict: Verdict)
      requires Ready(topic, state)
      modifies this
      ensures state == Next(topic, old(state), Deliver(cacheUp)) && verdict == Handle(topic, old(state), cacheUp).1
      ensures state.position == state.last == old(state).position + 1 && !state.flushed
      ensures state.db == old(state).db && 0 < state.pending <= old(state).pending + 1
      ensures verdict.Malformed? ==> state.tx == old(state).db && state.pending == 1
      ensures Quarantines(topic.log[old(state).position], verdict)
      ensures !verdict.Malformed? ==> |state.tx.cases| == |old(state).tx.cases| + if verdict.Opened? then 1 else 0
    {
      var (next, v) := Handle(topic, state, cacheUp);
      state, verdict := next, v;
    }

    /** Handles the next message, counts it, and commits the batch if it is full. */
    method TakeOne(cacheUp: bool, stuck: bool, totals: Totals) returns (next: Totals, ghost steps: seq<Step>)
      requires Ready(topic, state)
      modifies this
      ensures state == Run(topic, old(state), steps) && next == totals.Plus(Handle(topic, old(state), cacheUp).1)
      ensures next.Sum() == totals.Sum() + 1 && next.malformed >= totals.malformed
      ensures !state.flushed && state.pending < topic.commitEvery
      ensures state.position == state.last == old(state).position + 1
      ensures next.malformed == totals.malformed ==>
                |state.tx.cases| == |old(state).tx.cases| + next.opening - totals.opening
      ensures state.pending == 0 ==> state.db == state.tx && (stuck ==> state.offset == state.position)
      ensures !Bad(topic.log[old(state).position]) && KeysBacked(topic, old(state).keys, old(state).tx) ==>
                && state.tx == Absorb(topic.split, old(state).tx, topic.log[old(state).position])
                && KeysBacked(topic, state.keys, state.tx)
    {
      if !Bad(topic.log[state.position]) && KeysBacked(topic, state.keys, state.tx) {
        ReceiveAbsorbs(topic, state, cacheUp);
      }
      steps := [Deliver(cacheUp)];
      assert steps[1..] == [];
      var verdict := Take(cacheUp);
      next := totals.Plus(verdict);
      if state.pending >= topic.commitEvery {
        ghost var flushing := Flush(stuck);
        RunConcat(topic, old(state), steps, flushing);
        steps := steps + flushing;
      }
    }

    /**
     Consumes until the polls run out, then commits what is left of the last batch. It takes
     every message it is given until the log ends; if none of them is bad and the cache is
     honest, the tables end up with exactly what they amount to. Whatever it does is a run of
     the step system, and every message is counted under one heading.
    */
    method Consume(polls: seq<Poll>, stuck: bool) returns (totals: Totals, processed: nat, ghost steps: seq<Step>)
      requires topic.commitEvery > 0 && Idle(state) && state.db == state.tx
      modifies this
      ensures state == Run(topic, old(state), steps)
      ensures Idle(state) && state.db == state.tx
      ensures processed == Taken(|topic.log| - old(state).position, polls)
      ensures state.position == old(state).position + processed && totals.Sum() == processed
      ensures processed > 0 && NoneBad(topic, old(state).position, state.position)
              && KeysBacked(topic, old(state).keys, old(state).tx) ==>
                state.db == Fold(topic.split, old(state).db, topic.log[old(state).position..state.position])
      ensures totals.malformed == 0 ==> |state.db.cases| == |old(state).db.cases| + totals.opening
      ensures stuck && processed > 0 ==> state.offset == state.position
    {
      totals, processed, steps := Totals(0, 0, 0, 0, 0, 0), 0, [];
      for i := 0 to |polls|
        invariant state == Run(topic, old(state), steps)
        invariant !state.flushed && state.pending < topic.commitEvery
        invariant state.position == old(state).position + processed && totals.Sum() == processed
        invariant totals.malformed == 0 ==> |state.tx.cases| == |old(state).db.cases| + totals.opening
        invariant state.pending == 0 ==> state.db == state.tx
        invariant processed == Taken(|topic.log| - old(state).position, polls[..i])
        invariant Absorbed(topic, old(state), state)
        invariant processed > 0 ==> state.last == state.position
        invariant stuck && processed > 0 && state.pending == 0 ==> state.offset == state.position
      {
        assert polls[..i + 1][..i] == polls[..i];
        if polls[i].Message? && state.position < |topic.log| {
          ghost var taken, before := [], state;
          totals, taken := TakeOne(polls[i].cacheUp, stuck, totals);
          RunConcat(topic, old(state), steps, taken);
          AbsorbedOneMore(topic, old(state), before, state);
          steps, processed := steps + taken, processed + 1;
        }
      }
      assert polls[..|polls|] == polls;
      if state.pending > 0 {
        ghost var flushing := Flush(stuck);
        RunConcat(topic, old(state), steps, flushing);
        steps := steps + flushing;
      }
    }
  }
}
