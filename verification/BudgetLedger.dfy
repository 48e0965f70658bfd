/**
 The budget ledger: what a merchant authorised for a window and what has been spent of it.
 Each SQL statement is one atomic step, so planners interleave statement by statement.
*/
module BudgetLedger {

  datatype Kind = ContactKind | DiscountKind

  datatype Slot = Slot(merchant: nat, kind: Kind, window: int)

  datatype Entry = Entry(limit: int, consumed: int) {
    function Remaining(): nat {
      if limit > consumed then limit - consumed else 0
    }
  }

  type Table = map<Slot, Entry>

  const DEFAULT_CONTACT_LIMIT := 50
  const DEFAULT_DISCOUNT_LIMIT_PAISE := 5000000

  function DefaultLimit(kind: Kind): int {
    if kind.ContactKind? then DEFAULT_CONTACT_LIMIT else DEFAULT_DISCOUNT_LIMIT_PAISE
  }

  /** The statements that write the ledger. */
  datatype Statement =
    | InsertDefault(slot: Slot)
    | ConditionalAdd(slot: Slot, amount: int)
    | FlooredSubtract(slot: Slot, amount: int)

  /** Whether the statement finds a row it may update. */
  predicate Updates(t: Table, s: Statement) {
    match s
    case InsertDefault(slot) => slot !in t
    case ConditionalAdd(slot, amount) => slot in t && t[slot].consumed + amount <= t[slot].limit
    case FlooredSubtract(slot, _) => slot in t
  }

  function Execute(t: Table, s: Statement): Table {
    if !Updates(t, s) then t
    else
      match s
      case InsertDefault(slot) => t[slot := Entry(DefaultLimit(slot.kind), 0)]
      case ConditionalAdd(slot, amount) => t[slot := t[slot].(consumed := t[slot].consumed + amount)]
      case FlooredSubtract(slot, amount) =>
        var left := t[slot].consumed - amount;
        t[slot := t[slot].(consumed := if left > 0 then left else 0)]
  }

  function Run(t: Table, statements: seq<Statement>): Table
    decreases |statements|
  {
    if statements == [] then t else Run(Execute(t, statements[0]), statements[1..])
  }

  /** Nothing is overspent, and nothing is owed back. */
  ghost predicate Sound(t: Table) {
    forall slot :: slot in t ==> 0 <= t[slot].consumed <= t[slot].limit
  }

  /** What callers may issue: spends and releases of nonnegative amounts. */
  predicate WellFormed(s: Statement) {
    !s.InsertDefault? ==> s.amount >= 0
  }

  /** Under any interleaving of planners no budget is ever exceeded. */
  lemma {:induction false} NoInterleavingOverspends(t: Table, statements: seq<Statement>)
    requires Sound(t) && forall i :: 0 <= i < |statements| ==> WellFormed(statements[i])
    ensures Sound(Run(t, statements))
    decreases |statements|
  {
    if statements != [] {
      assert WellFormed(statements[0]);
      assert Sound(Execute(t, statements[0]));
      NoInterleavingOverspends(Execute(t, statements[0]), statements[1..]);
    }
  }

  /** A repeated release takes nothing more exactly when the first one left nothing to take. */
  lemma DoubleReleaseIsHarmlessExactlyWhen(t: Table, slot: Slot, amount: nat)
    requires Sound(t) && slot in t
    ensures var once := Execute(t, FlooredSubtract(slot, amount));
            Execute(once, FlooredSubtract(slot, amount)) == once <==> amount == 0 || t[slot].consumed <= amount
  {
    var once := Execute(t, FlooredSubtract(slot, amount));
    var twice := Execute(once, FlooredSubtract(slot, amount));
    assert slot in once && slot in twice;
    if once[slot] == twice[slot] {
      assert twice == once[slot := once[slot]] == once;
    }
  }

  /** The amounts that a run actually grants against one slot. */
  function Granted(t: Table, statements: seq<Statement>, slot: Slot): int
    decreases |statements|
  {
    if statements == [] then 0
    else
      var s := statements[0];
      (if s.ConditionalAdd? && s.slot == slot && Updates(t, s) then s.amount else 0)
      + Granted(Execute(t, s), statements[1..], slot)
  }

  predicate Releases(s: Statement, slot: Slot) {
    s.FlooredSubtract? && s.slot == slot
  }

  /** Without releases, consumption is exactly what was granted, and grants never pass the limit. */
  lemma {:induction false} GrantsAccountForConsumption(t: Table, statements: seq<Statement>, slot: Slot)
    requires Sound(t) && slot in t
    requires forall i :: 0 <= i < |statements| ==> WellFormed(statements[i]) && !Releases(statements[i], slot)
    ensures var end := Run(t, statements);
            && slot in end && end[slot].limit == t[slot].limit
            && end[slot].consumed == t[slot].consumed + Granted(t, statements, slot)
            && t[slot].consumed + Granted(t, statements, slot) <= t[slot].limit
    decreases |statements|
  {
    if statements != [] {
      assert WellFormed(statements[0]) && !Releases(statements[0], slot);
      NoInterleavingOverspends(t, [statements[0]]);
      assert Sound(Execute(t, statements[0]));
      GrantsAccountForConsumption(Execute(t, statements[0]), statements[1..], slot);
    }
  }

  // Grants and what is given back of them

  /** What callers do with one budget: take a grant, give an earlier one back, or work on other rows. */
  datatype Use = Take(amount: nat) | GiveBack(grant: nat) | Elsewhere(statement: Statement)

  /** The ledger, the grants taken from one budget in order, and those given back at least once. */
  datatype Book = Book(table: Table, granted: seq<nat>, returned: set<nat>)

  function Post(book: Book, slot: Slot, use: Use): Book {
    match use
    case Take(amount) =>
      var add := ConditionalAdd(slot, amount);
      if Updates(book.table, add) then
        book.(table := Execute(book.table, add), granted := book.granted + [amount])
      else book
    case GiveBack(g) =>
      if g < |book.granted| then
        book.(table := Execute(book.table, FlooredSubtract(slot, book.granted[g])), returned := book.returned + {g})
      else book
    case Elsewhere(statement) =>
      if statement.slot != slot && WellFormed(statement) then book.(table := Execute(book.table, statement)) else book
  }

  function PostAll(book: Book, slot: Slot, uses: seq<Use>): Book
    decreases |uses|
  {
    if uses == [] then book else PostAll(Post(book, slot, uses[0]), slot, uses[1..])
  }

  /** What is really out: the grants that were never given back. */
  function Out(granted: seq<nat>, returned: set<nat>): nat {
    if granted == [] then 0
    else
      var g := |granted| - 1;
      Out(granted[..g], returned) + if g in returned then 0 else granted[g]
  }

  /** The budget's row says exactly what is out, on top of what it said at the start. */
  ghost predicate Balanced(book: Book, slot: Slot, base: nat) {
    && Sound(book.table) && slot in book.table
    && book.table[slot].consumed == base + Out(book.granted, book.returned)
  }

  lemma {:induction false} OutAfterReturn(granted: seq<nat>, returned: set<nat>, g: nat)
    requires g < |granted|
    ensures Out(granted, returned + {g}) == Out(granted, returned) - if g in returned then 0 else granted[g]
    decreases |granted|
  {
    var last := |granted| - 1;
    if g < last {
      OutAfterReturn(granted[..last], returned, g);
    } else {
      OutIgnoresLater(granted[..last], returned, g);
    }
  }

  lemma {:induction false} OutIgnoresLater(granted: seq<nat>, returned: set<nat>, g: nat)
    requires g >= |granted|
    ensures Out(granted, returned + {g}) == Out(granted, returned)
    decreases |granted|
  {
    if granted != [] {
      OutIgnoresLater(granted[..|granted| - 1], returned, g);
    }
  }

  /** A grant given back again, although it was worth something and something is still out. */
  predicate Harmful(book: Book, slot: Slot, use: Use) {
    && use.GiveBack? && use.grant < |book.granted| && use.grant in book.returned && book.granted[use.grant] > 0
    && slot in book.table && book.table[slot].consumed > 0
  }

  /** Giving back is the only thing that can unbalance a budget, and does so exactly when it is harmful. */
  lemma PostBalancesExactlyWhenHarmless(book: Book, slot: Slot, use: Use, base: nat)
    requires Balanced(book, slot, base) && forall g :: g in book.returned ==> g < |book.granted|
    ensures var next := Post(book, slot, use);
            && (Balanced(next, slot, base) <==> !Harmful(book, slot, use))
            && (forall g :: g in next.returned ==> g < |next.granted|)
            && slot in next.table && next.table[slot].limit == book.table[slot].limit
  {
    match use
    case Take(amount) =>
      assert (book.granted + [amount])[..|book.granted|] == book.granted;
    case GiveBack(g) =>
      if g < |book.granted| {
        OutAfterReturn(book.granted, book.returned, g);
        OutCovers(book.granted, book.returned, g);
      }
    case Elsewhere(_) =>
  }

  lemma {:induction false} OutCovers(granted: seq<nat>, returned: set<nat>, g: nat)
    requires g < |granted|
    ensures g !in returned ==> Out(granted, returned) >= granted[g]
    decreases |granted|
  {
    if g < |granted| - 1 {
      OutCovers(granted[..|granted| - 1], returned, g);
    }
  }

  ghost predicate AlwaysBalanced(book: Book, slot: Slot, uses: seq<Use>, base: nat)
    decreases |uses|
  {
    && Balanced(book, slot, base)
    && (uses != [] ==> AlwaysBalanced(Post(book, slot, uses[0]), slot, uses[1..], base))
  }

  predicate NeverHarmful(book: Book, slot: Slot, uses: seq<Use>)
    decreases |uses|
  {
    uses != [] ==> !Harmful(book, slot, uses[0]) && NeverHarmful(Post(book, slot, uses[0]), slot, uses[1..])
  }

  /**
   Over any run the budget's row tells what is really out, and that stays within the limit, at
   every moment if and only if no grant is given back twice while something is out.
  */
  lemma {:induction false} BudgetTellsTheTruthExactlyWhen(book: Book, slot: Slot, uses: seq<Use>, base: nat)
    requires Balanced(book, slot, base) && forall g :: g in book.returned ==> g < |book.granted|
    ensures AlwaysBalanced(book, slot, uses, base) <==> NeverHarmful(book, slot, uses)
    ensures NeverHarmful(book, slot, uses) ==>
              var end := PostAll(book, slot, uses);
              Balanced(end, slot, base) && base + Out(end.granted, end.returned) <= book.table[slot].limit
    decreases |uses|
  {
    if uses != [] {
      PostBalancesExactlyWhenHarmless(book, slot, uses[0], base);
      if !Harmful(book, slot, uses[0]) {
        BudgetTellsTheTruthExactlyWhen(Post(book, slot, uses[0]), slot, uses[1..], base);
      }
    }
  }

  lemma OutOfThree()
    ensures Out([60, 10, 50], {1}) == 110
  {
    var granted: seq<nat> := [60, 10, 50];
    assert granted[..2][..1] == [60] && [60][..0] == [];
    assert Out(granted[..2][..1], {1}) == 60;
    assert Out(granted[..2], {1}) == 60;
  }

  /** A limit of 100: grants of 60 and 10, the 10 given back twice, and then 50 more is granted. */
  lemma DoubleReleaseOverspends(slot: Slot)
    ensures var start := Book(map[slot := Entry(100, 0)], [], {});
            var end := PostAll(start, slot, [Take(60), Take(10), GiveBack(1), GiveBack(1), Take(50)]);
            && slot in end.table && end.table[slot] == Entry(100, 100) && Out(end.granted, end.returned) == 110
  {
    var start := Book(map[slot := Entry(100, 0)], [], {});
    var uses := [Take(60), Take(10), GiveBack(1), GiveBack(1), Take(50)];
    var b1 := Post(start, slot, uses[0]);
    var b2 := Post(b1, slot, uses[1]);
    var b3 := Post(b2, slot, uses[2]);
    var b4 := Post(b3, slot, uses[3]);
    var b5 := Post(b4, slot, uses[4]);
    assert b4.granted == [60, 10] && b4.returned == {1} && b4.table[slot] == Entry(100, 50);
    assert b5.granted == [60, 10, 50] && b5.returned == {1};
    OutOfThree();
    assert uses[1..] == [Take(10), GiveBack(1), GiveBack(1), Take(50)];
    assert PostAll(b4, slot, [Take(50)]) == b5;
    assert PostAll(b3, slot, [GiveBack(1), Take(50)]) == b5;
    assert PostAll(b2, slot, [GiveBack(1), GiveBack(1), Take(50)]) == b5;
    assert PostAll(b1, slot, uses[1..]) == b5;
  }

  /** The row a caller finds: what is there, or 50 contacts or 50,000 rupees of discount, untouched. */
  function Found(t: Table, slot: Slot): Entry {
    if slot in t then t[slot]
    else
      match slot.kind
      case ContactKind => Entry(50, 0)
      case DiscountKind => Entry(5000000, 0)
  }

  datatype Spent = Consumed(total: int) | BudgetExceeded(asked: int, remaining: int) | NegativeAmount

  class Ledger {
    var table: Table

    /** Reads one budget, creating a conservative default row if there is none. */
    method Load(slot: Slot) returns (state: Entry)
      modifies this
      ensures table == Execute(old(table), InsertDefault(slot))
      ensures table == old(table)[slot := Found(old(table), slot)] && state == Found(old(table), slot)
    {
      if slot in table {
        assert table[slot := table[slot]] == table;
        return table[slot];
      }
      table := Execute(table, InsertDefault(slot));
      state := Entry(DefaultLimit(slot.kind), 0);
    }

    /** Consumes exactly the amount from a budget, or refuses, says what is left and takes nothing. */
    method Spend(slot: Slot, amount: int) returns (result: Spent)
      modifies this
      ensures amount >= 0 ==>
                var found := Found(old(table), slot);
                var total := found.consumed + amount;
                if amount == 0 || total <= found.limit
                  then result == Consumed(total) && table == old(table)[slot := found.(consumed := total)]
                else
                  var left := if found.consumed < found.limit then found.limit - found.consumed else 0;
                  result == BudgetExceeded(amount, left) && table == old(table)[slot := found]
      ensures amount < 0 ==> result.NegativeAmount? && table == old(table)
      ensures amount >= 0 ==>
                var loaded := Execute(old(table), InsertDefault(slot));
                && slot in loaded && slot in table
                && table == Execute(loaded, ConditionalAdd(slot, amount))
                && (result.Consumed? <==> amount == 0 || loaded[slot].consumed + amount <= loaded[slot].limit)
                && (result.Consumed? ==> result.total == table[slot].consumed == loaded[slot].consumed + amount)
                && (!result.Consumed? ==>
                      table == loaded && result == BudgetExceeded(amount, loaded[slot].Remaining()))
    {
      if amount < 0 {
        return NegativeAmount;
      }
      var state := Load(slot);
      if amount == 0 {
        assert table[slot := table[slot]] == table;
        return Consumed(state.consumed);
      }
      var statement := ConditionalAdd(slot, amount);
      if Updates(table, statement) {
        table := Execute(table, statement);
        result := Consumed(table[slot].consumed);
      } else {
        state := Load(slot);
        result := BudgetExceeded(amount, state.Remaining());
      }
    }

    /** Returns unspent budget, never below zero. */
    method Release(slot: Slot, amount: int) returns (consumed: int)
      modifies this
      ensures table == Execute(old(table), FlooredSubtract(slot, amount))
      ensures slot !in old(table) ==> table == old(table) && consumed == 0
      ensures slot in old(table) ==>
                var left := old(table)[slot].consumed - amount;
                && consumed == (if left < 0 then 0 else left)
                && table == old(table)[slot := Entry(old(table)[slot].limit, consumed)]
    {
      table := Execute(table, FlooredSubtract(slot, amount));
      consumed := if slot in table then table[slot].consumed else 0;
    }
  }
}
