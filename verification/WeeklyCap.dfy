/**
 The weekly contact cap over a whole history of contacts marked dispatched. A planner counts
 the week before its planning moment and then contacts each customer at most once. The module
 says exactly when no window of seven days ever holds more contacts of one customer than the
 cap, and what the planner's count is worth towards that.
*/
module WeeklyCap {
  import opened Candidates

  type Instant = int

  const WEEK := 7 * 24 * 3600

  datatype Contact = Contact(customer: CustomerId, at: Instant)

  /** Contacts of a customer dispatched from one instant up to but not including another. */
  function InWindow(history: seq<Contact>, x: CustomerId, from: Instant, to: Instant): nat {
    if history == [] then 0
    else
      var last := history[|history| - 1];
      InWindow(history[..|history| - 1], x, from, to)
      + if last.customer == x && from <= last.at < to then 1 else 0
  }

  /** The contacts of the week before an instant. */
  function Week(history: seq<Contact>, x: CustomerId, t: Instant): nat {
    InWindow(history, x, t - WEEK, t)
  }

  /** One planning cycle, or one approval: what it counted, when, and what it then sent. */
  datatype Batch = Batch(asOf: Instant, contacts: seq<Contact>)

  ghost predicate DistinctCustomers(contacts: seq<Contact>) {
    forall i, j :: 0 <= i < j < |contacts| ==> contacts[i].customer != contacts[j].customer
  }

  /** What a cycle checks: each customer at most once, each with room in the week before the planning moment. */
  ghost predicate Admitted(history: seq<Contact>, batch: Batch, cap: int) {
    && DistinctCustomers(batch.contacts)
    && (forall i :: 0 <= i < |batch.contacts| ==> Week(history, batch.contacts[i].customer, batch.asOf) < cap)
  }

  predicate Apart(s: Instant, t: Instant) {
    s <= t - WEEK || s >= t + WEEK
  }

  /** Every earlier contact within a week of a new one to the same customer fell in the week that was counted. */
  ghost predicate NothingMissed(history: seq<Contact>, batch: Batch) {
    forall i, j :: 0 <= i < |history| && 0 <= j < |batch.contacts| &&
                   history[i].customer == batch.contacts[j].customer ==>
      Apart(history[i].at, batch.contacts[j].at) || batch.asOf - WEEK <= history[i].at < batch.asOf
  }

  ghost predicate WithinCap(history: seq<Contact>, cap: int) {
    forall x, t :: Week(history, x, t) <= cap
  }

  function After(history: seq<Contact>, batches: seq<Batch>): seq<Contact>
    decreases |batches|
  {
    if batches == [] then history else After(history + batches[0].contacts, batches[1..])
  }

  lemma {:induction false} WindowConcat(a: seq<Contact>, b: seq<Contact>, x: CustomerId, from: Instant, to: Instant)
    ensures InWindow(a + b, x, from, to) == InWindow(a, x, from, to) + InWindow(b, x, from, to)
    decreases |b|
  {
    if b == [] {
      assert a + b == a;
    } else {
      assert (a + b)[..|a + b| - 1] == a + b[..|b| - 1];
      WindowConcat(a, b[..|b| - 1], x, from, to);
    }
  }

  lemma {:induction false} DistinctCustomersOnce(contacts: seq<Contact>, x: CustomerId, from: Instant, to: Instant)
    requires DistinctCustomers(contacts)
    ensures InWindow(contacts, x, from, to) <= 1
    ensures InWindow(contacts, x, from, to) == 1 <==>
              exists i :: 0 <= i < |contacts| && contacts[i].customer == x && from <= contacts[i].at < to
    decreases |contacts|
  {
    if contacts != [] {
      var n := |contacts| - 1;
      DistinctCustomersOnce(contacts[..n], x, from, to);
      assert forall i :: 0 <= i < n ==> contacts[..n][i] == contacts[i];
    }
  }

  /** A contact counts from the next second on for exactly seven days. */
  lemma WeekIsSevenDays(x: CustomerId, at: Instant, t: Instant)
    ensures Week([Contact(x, at)], x, t) == if at < t <= at + 604800 then 1 else 0
  {
    var one := [Contact(x, at)];
    assert WEEK == 604800 && one[|one| - 1] == Contact(x, at);
    assert InWindow(one[..0], x, t - WEEK, t) == 0;
  }

  // Exactly when a batch keeps the cap

  /**
   One seven-day window that starts at a contact of the customer, or at the new one, and
   reaches the new one.
  */
  predicate StartsWindow(history: seq<Contact>, k: Contact, from: Instant) {
    from <= k.at < from + WEEK && (from == k.at || Contact(k.customer, from) in history)
  }

  /** No such window is full already. Only the contacts of the week before the new one need checking. */
  ghost predicate Room(history: seq<Contact>, k: Contact, cap: int) {
    forall from :: StartsWindow(history, k, from) ==> InWindow(history, k.customer, from, from + WEEK) < cap
  }

  ghost predicate RoomForAll(history: seq<Contact>, batch: Batch, cap: int) {
    forall i :: 0 <= i < |batch.contacts| ==> Room(history, batch.contacts[i], cap)
  }

  /** Sliding a window right to the first contact in it loses nothing. */
  lemma {:induction false} SlideWindow(history: seq<Contact>, k: Contact, from: Instant, to: Instant)
      returns (start: Instant)
    requires from <= k.at < to
    ensures from <= start <= k.at && (start == k.at || Contact(k.customer, start) in history)
    ensures InWindow(history, k.customer, start, to) == InWindow(history, k.customer, from, to)
    decreases |history|
  {
    start := k.at;
    if history != [] {
      var rest, last := history[..|history| - 1], history[|history| - 1];
      start := SlideWindow(rest, k, from, to);
      if last.customer == k.customer && from <= last.at < start {
        NarrowerWindow(rest, k.customer, from, last.at, to, to);
        NarrowerWindow(rest, k.customer, last.at, start, to, to);
        start := last.at;
        assert Contact(k.customer, start) == last;
      }
    }
  }

  lemma {:induction false} NarrowerWindow(history: seq<Contact>, x: CustomerId, from: Instant, start: Instant,
                                          end: Instant, to: Instant)
    requires from <= start && end <= to
    ensures InWindow(history, x, start, end) <= InWindow(history, x, from, to)
    decreases |history|
  {
    if history != [] {
      NarrowerWindow(history[..|history| - 1], x, from, start, end, to);
    }
  }

  lemma RoomKeepsCap(history: seq<Contact>, batch: Batch, cap: int, x: CustomerId, t: Instant)
    requires WithinCap(history, cap) && DistinctCustomers(batch.contacts) && RoomForAll(history, batch, cap)
    ensures Week(history + batch.contacts, x, t) <= cap
  {
    assert Week(history, x, t) <= cap;
    WindowConcat(history, batch.contacts, x, t - WEEK, t);
    DistinctCustomersOnce(batch.contacts, x, t - WEEK, t);
    if InWindow(batch.contacts, x, t - WEEK, t) == 1 {
      var i :| 0 <= i < |batch.contacts| && batch.contacts[i].customer == x
               && t - WEEK <= batch.contacts[i].at < t;
      var k := batch.contacts[i];
      var start := SlideWindow(history, k, t - WEEK, t);
      NarrowerWindow(history, x, start, start, t, start + WEEK);
      assert StartsWindow(history, k, start) && Room(history, k, cap);
    }
  }

  lemma CapNeedsRoom(history: seq<Contact>, batch: Batch, cap: int, i: nat, from: Instant)
    requires WithinCap(history + batch.contacts, cap) && DistinctCustomers(batch.contacts) && i < |batch.contacts|
    requires StartsWindow(history, batch.contacts[i], from)
    ensures InWindow(history, batch.contacts[i].customer, from, from + WEEK) < cap
  {
    var k := batch.contacts[i];
    WindowConcat(history, batch.contacts, k.customer, from, from + WEEK);
    DistinctCustomersOnce(batch.contacts, k.customer, from, from + WEEK);
    assert Week(history + batch.contacts, k.customer, from + WEEK) <= cap;
  }

  lemma PrefixWithinCap(history: seq<Contact>, more: seq<Contact>, cap: int)
    requires WithinCap(history + more, cap)
    ensures WithinCap(history, cap)
  {
    forall x, t ensures Week(history, x, t) <= cap {
      WindowConcat(history, more, x, t - WEEK, t);
      assert Week(history + more, x, t) <= cap;
    }
  }

  /** A batch keeps the cap exactly when every contact in it finds room. */
  lemma BatchKeepsCapExactlyWhenRoom(history: seq<Contact>, batch: Batch, cap: int)
    requires WithinCap(history, cap) && DistinctCustomers(batch.contacts)
    ensures WithinCap(history + batch.contacts, cap) <==> RoomForAll(history, batch, cap)
  {
    if RoomForAll(history, batch, cap) {
      forall x, t ensures Week(history + batch.contacts, x, t) <= cap {
        RoomKeepsCap(history, batch, cap, x, t);
      }
    }
    if WithinCap(history + batch.contacts, cap) {
      forall i, from | 0 <= i < |batch.contacts| && StartsWindow(history, batch.contacts[i], from)
        ensures InWindow(history, batch.contacts[i].customer, from, from + WEEK) < cap
      {
        CapNeedsRoom(history, batch, cap, i, from);
      }
    }
  }

  /** Every batch of a run sends each customer one contact at most. */
  ghost predicate OneEach(batches: seq<Batch>) {
    forall i :: 0 <= i < |batches| ==> DistinctCustomers(batches[i].contacts)
  }

  /** Every batch of a run finds room in the history it meets. */
  ghost predicate RoomThroughout(history: seq<Contact>, batches: seq<Batch>, cap: int)
    decreases |batches|
  {
    batches != [] ==>
      RoomForAll(history, batches[0], cap) && RoomThroughout(history + batches[0].contacts, batches[1..], cap)
  }

  lemma {:induction false} RunWithinCap(history: seq<Contact>, batches: seq<Batch>, cap: int)
    requires WithinCap(After(history, batches), cap)
    ensures WithinCap(history, cap)
    decreases |batches|
  {
    if batches != [] {
      RunWithinCap(history + batches[0].contacts, batches[1..], cap);
      PrefixWithinCap(history, batches[0].contacts, cap);
    }
  }

  /**
   Whatever the planning moments, no seven days of a run hold more contacts of a customer than
   the cap if and only if every contact found room when it was sent.
  */
  lemma {:induction false} CapHoldsExactlyWhenRoomThroughout(history: seq<Contact>, batches: seq<Batch>, cap: int)
    requires WithinCap(history, cap) && OneEach(batches)
    ensures WithinCap(After(history, batches), cap) <==> RoomThroughout(history, batches, cap)
    decreases |batches|
  {
    if batches != [] {
      var next := history + batches[0].contacts;
      BatchKeepsCapExactlyWhenRoom(history, batches[0], cap);
      if WithinCap(next, cap) {
        CapHoldsExactlyWhenRoomThroughout(next, batches[1..], cap);
      } else if WithinCap(After(history, batches), cap) {
        RunWithinCap(next, batches[1..], cap);
      }
    }
  }

  // What the planner's count is worth

  /** What the planner counted covers every window that reaches the new contact, if it missed nothing. */
  lemma {:induction false} CountCovers(history: seq<Contact>, k: Contact, from: Instant, asOf: Instant)
    requires from <= k.at < from + WEEK
    requires forall i :: 0 <= i < |history| && history[i].customer == k.customer ==>
                           Apart(history[i].at, k.at) || asOf - WEEK <= history[i].at < asOf
    ensures InWindow(history, k.customer, from, from + WEEK) <= Week(history, k.customer, asOf)
    decreases |history|
  {
    if history != [] {
      var last := history[|history| - 1];
      assert last.customer == k.customer ==> Apart(last.at, k.at) || asOf - WEEK <= last.at < asOf;
      CountCovers(history[..|history| - 1], k, from, asOf);
    }
  }

  lemma AdmittedFindsRoom(history: seq<Contact>, batch: Batch, cap: int)
    requires Admitted(history, batch, cap) && NothingMissed(history, batch)
    ensures RoomForAll(history, batch, cap)
  {
    forall i, from | 0 <= i < |batch.contacts| && StartsWindow(history, batch.contacts[i], from)
      ensures InWindow(history, batch.contacts[i].customer, from, from + WEEK) < cap
    {
      CountCovers(history, batch.contacts[i], from, batch.asOf);
    }
  }

  /** A run of batches, each admitted against the history it found and having counted what matters of it. */
  ghost predicate Admissible(history: seq<Contact>, batches: seq<Batch>, cap: int)
    decreases |batches|
  {
    batches != [] ==>
      && NothingMissed(history, batches[0]) && Admitted(history, batches[0], cap)
      && Admissible(history + batches[0].contacts, batches[1..], cap)
  }

  /** In no run of cycles is a customer contacted more often than the cap in any seven days. */
  lemma {:induction false} CapHoldsInEveryWindow(history: seq<Contact>, batches: seq<Batch>, cap: int)
    requires WithinCap(history, cap) && Admissible(history, batches, cap)
    ensures WithinCap(After(history, batches), cap)
    decreases |batches|
  {
    if batches != [] {
      AdmittedFindsRoom(history, batches[0], cap);
      BatchKeepsCapExactlyWhenRoom(history, batches[0], cap);
      CapHoldsInEveryWindow(history + batches[0].contacts, batches[1..], cap);
    }
  }

  /** As many contacts of one customer at one instant as the cap allows. */
  function Burst(n: nat): seq<Contact> {
    if n == 0 then [] else Burst(n - 1) + [Contact(0, 100)]
  }

  lemma {:induction false} BurstCount(n: nat, x: CustomerId, from: Instant, to: Instant)
    ensures InWindow(Burst(n), x, from, to) == if x == 0 && from <= 100 < to then n else 0
  {
    if n > 0 {
      assert Burst(n)[..|Burst(n)| - 1] == Burst(n - 1);
      BurstCount(n - 1, x, from, to);
    }
  }

  /** A full week of contacts that the planner's week misses lets one more through. */
  lemma OneTooMany(history: seq<Contact>, k: Contact, from: Instant, asOf: Instant, cap: nat)
    requires WithinCap(history, cap) && cap >= 1 && Week(history, k.customer, asOf) == 0
    requires InWindow(history, k.customer, from, from + WEEK) == cap && from <= k.at < from + WEEK
    ensures Admitted(history, Batch(asOf, [k]), cap) && !WithinCap(history + [k], cap)
  {
    WindowConcat(history, [k], k.customer, from, from + WEEK);
    assert [k] == [] + [k];
    assert InWindow([k], k.customer, from, from + WEEK) == 1;
    assert Week(history + [k], k.customer, from + WEEK) == cap + 1;
  }

  /**
   Planned for any moment whose week leaves out contacts just sent, earlier or later, a cycle
   does not see them: whatever the cap, a batch is admitted that breaks it.
  */
  lemma {:induction false} UncountedContactsBreakTheCap(cap: nat, asOf: Instant)
    requires cap >= 1 && !(asOf - WEEK <= 100 < asOf)
    ensures var batch := Batch(asOf, [Contact(0, 110)]);
            && WithinCap(Burst(cap), cap) && Admitted(Burst(cap), batch, cap)
            && !WithinCap(Burst(cap) + batch.contacts, cap)
  {
    forall x, t ensures Week(Burst(cap), x, t) <= cap {
      BurstCount(cap, x, t - WEEK, t);
    }
    BurstCount(cap, 0, asOf - WEEK, asOf);
    BurstCount(cap, 0, 100, 100 + WEEK);
    OneTooMany(Burst(cap), Contact(0, 110), 100, asOf, cap);
  }
}
