/**
 The hash-chained audit trail. The digest is modelled as an injective constructor: it names
 the digest it extends and the canonical payload, so equal digests mean equal histories.
*/
module AuditChain {
  import opened Options

  type MerchantId = nat

  datatype Actor = Agent | Human | System

  /** The fields a row commits to. Their canonical form is taken to be injective. */
  datatype Content = Content(
    traceId: nat,
    merchant: MerchantId,
    actor: Actor,
    action: string,
    subject: Option<nat>,
    detail: string)

  datatype Digest = Genesis | Chained(prev: Digest, payload: Content)

  datatype Row = Row(id: nat, content: Content, prev: Option<Digest>, hash: Digest) {
    /** Same row as far as the chain is concerned. */
    predicate Matches(other: Row) {
      content == other.content && prev == other.prev && hash == other.hash
    }
  }

  function ChainHash(prev: Option<Digest>, payload: Content): Digest {
    Chained(if prev.None? then Genesis else prev.value, payload)
  }

  function Tip(chain: seq<Row>): Option<Digest> {
    if chain == [] then None else Some(chain[|chain| - 1].hash)
  }

  /** Row i names its predecessor and hashes to what it records. */
  predicate Linked(chain: seq<Row>, i: nat)
    requires i < |chain|
  {
    && chain[i].prev == Tip(chain[..i])
    && ChainHash(chain[i].prev, chain[i].content) == chain[i].hash
  }

  ghost predicate Intact(chain: seq<Row>) {
    forall i :: 0 <= i < |chain| ==> Linked(chain, i)
  }

  function ChainOf(rows: seq<Row>, m: MerchantId): seq<Row> {
    if rows == [] then []
    else
      var last := rows[|rows| - 1];
      ChainOf(rows[..|rows| - 1], m) + if last.content.merchant == m then [last] else []
  }

  lemma ChainAppend(rows: seq<Row>, row: Row, m: MerchantId)
    ensures ChainOf(rows + [row], m) == ChainOf(rows, m) + if row.content.merchant == m then [row] else []
  {
    assert (rows + [row])[..|rows|] == rows;
  }

  lemma ExtendIntact(chain: seq<Row>, row: Row)
    requires Intact(chain)
    requires row.prev == Tip(chain) && row.hash == ChainHash(row.prev, row.content)
    ensures Intact(chain + [row])
  {
    forall i | 0 <= i < |chain + [row]| ensures Linked(chain + [row], i) {
      assert (chain + [row])[..i] == chain[..i];
      assert i < |chain| ==> Linked(chain, i);
      assert i == |chain| ==> chain[..i] == chain;
    }
  }

  datatype Reason = RowRemovedOrReordered | RowEdited

  datatype ChainStatus = IntactChain(rows: nat) | BrokenChain(rows: nat, brokenAt: nat, reason: Reason)

  /** Every merchant's chain is intact and ids increase. */
  ghost predicate Kept(rows: seq<Row>) {
    && (forall m :: Intact(ChainOf(rows, m)))
    && (forall i, j :: 0 <= i < j < |rows| ==> rows[i].id < rows[j].id)
  }

  lemma ChainKeeps(rows: seq<Row>, row: Row, m: MerchantId)
    requires Intact(ChainOf(rows, m))
    requires row.prev == Tip(ChainOf(rows, row.content.merchant)) && row.hash == ChainHash(row.prev, row.content)
    ensures Intact(ChainOf(rows + [row], m))
  {
    ChainAppend(rows, row, m);
    if row.content.merchant == m {
      ExtendIntact(ChainOf(rows, m), row);
    } else {
      assert ChainOf(rows, m) + [] == ChainOf(rows, m);
    }
  }

  lemma AppendKeeps(rows: seq<Row>, row: Row)
    requires Kept(rows)
    requires rows != [] ==> row.id > rows[|rows| - 1].id
    requires row.prev == Tip(ChainOf(rows, row.content.merchant)) && row.hash == ChainHash(row.prev, row.content)
    ensures Kept(rows + [row])
  {
    forall m ensures Intact(ChainOf(rows + [row], m)) {
      assert Intact(ChainOf(rows, m));
      ChainKeeps(rows, row, m);
    }
  }

  class AuditTable {
    var rows: seq<Row>

    ghost predicate Valid()
      reads this
    {
      Kept(rows)
    }

    constructor ()
      ensures Valid() && rows == []
    {
      rows := [];
    }

    method TipOf(m: MerchantId) returns (tip: Option<Digest>)
      ensures tip == Tip(ChainOf(rows, m))
    {
      var i := |rows|;
      assert rows[..i] == rows;
      while i > 0
        invariant 0 <= i <= |rows|
        invariant ChainOf(rows, m) == ChainOf(rows[..i], m)
      {
        i := i - 1;
        assert rows[..i + 1][..i] == rows[..i];
        if rows[i].content.merchant == m {
          return Some(rows[i].hash);
        }
      }
      tip := None;
    }

    /** Extends one merchant's chain and leaves every other chain alone. */
    method Append(content: Content) returns (digest: Digest)
      requires Valid()
      modifies this
      ensures Valid()
      ensures digest == ChainHash(Tip(old(ChainOf(rows, content.merchant))), content)
      ensures |rows| == |old(rows)| + 1 && rows[..|old(rows)|] == old(rows)
      ensures ChainOf(rows, content.merchant) == old(ChainOf(rows, content.merchant)) + [rows[|rows| - 1]]
      ensures rows[|rows| - 1].content == content && rows[|rows| - 1].hash == digest
      ensures forall m :: m != content.merchant ==> ChainOf(rows, m) == old(ChainOf(rows, m))
    {
      var prev := TipOf(content.merchant);
      digest := ChainHash(prev, content);
      var row := Row(if rows == [] then 0 else rows[|rows| - 1].id + 1, content, prev, digest);
      AppendKeeps(rows, row);
      forall m ensures ChainOf(rows + [row], m) == ChainOf(rows, m) + if row.content.merchant == m then [row] else [] {
        ChainAppend(rows, row, m);
      }
      rows := rows + [row];
    }

    /** Walks a merchant's chain and reports the first row that does not verify. */
    method Verify(m: MerchantId) returns (status: ChainStatus)
      ensures status.rows == |ChainOf(rows, m)|
      ensures status.IntactChain? <==> Intact(ChainOf(rows, m))
      ensures status.BrokenChain? ==>
                exists k: nat :: FirstBreak(ChainOf(rows, m), k) && status.brokenAt == ChainOf(rows, m)[k].id
                                 && status.reason == ReasonAt(ChainOf(rows, m), k)
    {
      var chain := ChainOf(rows, m);
      var expected: Option<Digest> := None;
      var i := 0;
      while i < |chain|
        invariant 0 <= i <= |chain|
        invariant expected == Tip(chain[..i])
        invariant forall j :: 0 <= j < i ==> Linked(chain, j)
      {
        if chain[i].prev != expected {
          assert FirstBreak(chain, i);
          return BrokenChain(|chain|, chain[i].id, RowRemovedOrReordered);
        }
        if ChainHash(chain[i].prev, chain[i].content) != chain[i].hash {
          assert FirstBreak(chain, i);
          return BrokenChain(|chain|, chain[i].id, RowEdited);
        }
        expected := Some(chain[i].hash);
        i := i + 1;
      }
      status := IntactChain(|chain|);
    }
  }

  ghost predicate FirstBreak(chain: seq<Row>, k: nat) {
    k < |chain| && !Linked(chain, k) && forall j :: 0 <= j < k ==> Linked(chain, j)
  }

  function ReasonAt(chain: seq<Row>, k: nat): Reason
    requires k < |chain|
  {
    if chain[k].prev != Tip(chain[..k]) then RowRemovedOrReordered else RowEdited
  }

  // What an intact chain commits to

  lemma PrefixIntact(chain: seq<Row>, n: nat)
    requires n <= |chain| && Intact(chain)
    ensures Intact(chain[..n])
  {
    forall i | 0 <= i < n ensures Linked(chain[..n], i) {
      assert Linked(chain, i);
      assert chain[..n][..i] == chain[..i];
    }
  }

  /** The tip commits to the whole history: equal tips mean equal chains, row for row. */
  lemma {:induction false} TipCommitsToHistory(a: seq<Row>, b: seq<Row>)
    requires Intact(a) && Intact(b) && Tip(a) == Tip(b)
    ensures |a| == |b| && forall i :: 0 <= i < |a| ==> a[i].Matches(b[i])
  {
    if a != [] {
      var x, y := |a| - 1, |b| - 1;
      assert Linked(a, x) && Linked(b, y);
      PrefixIntact(a, x);
      PrefixIntact(b, y);
      NeverGenesis(a, x);
      NeverGenesis(b, y);
      TipCommitsToHistory(a[..x], b[..y]);
      forall i | 0 <= i < |a| ensures a[i].Matches(b[i]) {
        assert i < x ==> a[..x][i].Matches(b[..y][i]);
      }
    }
  }

  /** The digest before a row is a real one unless the row comes first. */
  lemma NeverGenesis(chain: seq<Row>, i: nat)
    requires i < |chain| && Intact(chain)
    ensures Tip(chain[..i]) != Some(Genesis)
    ensures i > 0 ==> Tip(chain[..i]) == Some(chain[i - 1].hash)
  {
    if i > 0 {
      assert Linked(chain, i - 1);
    }
  }

  /** No two rows of an intact chain share a digest. */
  lemma HashesDistinct(chain: seq<Row>, i: nat, j: nat)
    requires i < |chain| && j < |chain| && Intact(chain) && chain[i].hash == chain[j].hash
    ensures i == j
  {
    PrefixIntact(chain, i + 1);
    PrefixIntact(chain, j + 1);
    TipCommitsToHistory(chain[..i + 1], chain[..j + 1]);
  }

  // What tampering does

  /** Rows taken from a, in any order, with any of them missing or repeated. */
  ghost predicate DrawnFrom(b: seq<Row>, a: seq<Row>) {
    forall i :: 0 <= i < |b| ==> Recorded(b[i], a)
  }

  ghost predicate Recorded(row: Row, a: seq<Row>) {
    exists j :: 0 <= j < |a| && row.Matches(a[j])
  }

  ghost predicate Agree(b: seq<Row>, a: seq<Row>, n: nat) {
    n <= |b| && n <= |a| && forall i :: 0 <= i < n ==> b[i].Matches(a[i])
  }

  /** In an intact chain a row that names the tip of a prefix is the row after that prefix. */
  lemma PlaceIsUnique(a: seq<Row>, i: nat, j: nat)
    requires Intact(a) && i <= |a| && j < |a| && a[j].prev == Tip(a[..i])
    ensures i == j
  {
    assert Linked(a, j);
    NeverGenesis(a, j);
    if i > 0 {
      assert Tip(a[..i]) == Some(a[i - 1].hash);
      HashesDistinct(a, i - 1, j - 1);
    }
  }

  /** After an agreeing prefix, a row drawn from a verifies only in its original place. */
  lemma OnlyTheNextRowFits(a: seq<Row>, b: seq<Row>, i: nat)
    requires Intact(a) && DrawnFrom(b, a) && Agree(b, a, i) && i < |b|
    ensures Linked(b, i) <==> i < |a| && b[i].Matches(a[i])
  {
    assert Tip(b[..i]) == Tip(a[..i]) by {
      assert i > 0 ==> b[i - 1].Matches(a[i - 1]);
    }
    if Linked(b, i) {
      assert Recorded(b[i], a);
      var j :| 0 <= j < |a| && b[i].Matches(a[j]);
      PlaceIsUnique(a, i, j);
    }
    if i < |a| && b[i].Matches(a[i]) {
      assert Linked(a, i);
    }
  }

  lemma {:induction false} IntactMeansAgreeing(a: seq<Row>, b: seq<Row>, n: nat)
    requires Intact(a) && Intact(b) && DrawnFrom(b, a) && n <= |b|
    ensures Agree(b, a, n)
  {
    if n > 0 {
      IntactMeansAgreeing(a, b, n - 1);
      OnlyTheNextRowFits(a, b, n - 1);
      assert Linked(b, n - 1);
    }
  }

  /**
   Deleting, repeating or reordering rows of an intact chain goes unnoticed exactly when
   what remains is a prefix of it: only the newest rows can be cut off.
   */
  lemma ReshufflingShowsUnlessPrefix(a: seq<Row>, b: seq<Row>)
    requires Intact(a) && DrawnFrom(b, a)
    ensures Intact(b) <==> Agree(b, a, |b|)
  {
    if Intact(b) {
      IntactMeansAgreeing(a, b, |b|);
    }
    if Agree(b, a, |b|) {
      forall i | 0 <= i < |b| ensures Linked(b, i) {
        OnlyTheNextRowFits(a, b, i);
      }
    }
  }

  /** Verification stops at the first row that is not the original one. */
  lemma ReshufflingShowsAtFirstDifference(a: seq<Row>, b: seq<Row>, k: nat)
    requires Intact(a) && DrawnFrom(b, a)
    requires Agree(b, a, k) && k < |b| && (k < |a| ==> !b[k].Matches(a[k]))
    ensures FirstBreak(b, k)
  {
    OnlyTheNextRowFits(a, b, k);
    forall j | 0 <= j < k ensures Linked(b, j) {
      OnlyTheNextRowFits(a, b, j);
    }
  }

  /** Cutting out a block with rows after it breaks the chain right after the cut. */
  lemma DeletionShows(a: seq<Row>, i: nat, j: nat)
    requires Intact(a) && i < j < |a|
    ensures FirstBreak(a[..i] + a[j..], i)
    ensures ReasonAt(a[..i] + a[j..], i) == RowRemovedOrReordered
  {
    var b := a[..i] + a[j..];
    forall x | 0 <= x < |b| ensures Recorded(b[x], a) {
      assert b[x].Matches(a[if x < i then x else x - i + j]);
    }
    assert b[i] == a[j];
    assert Linked(a, i) && Linked(a, j);
    if b[i].Matches(a[i]) {
      HashesDistinct(a, i, j);
    }
    ReshufflingShowsAtFirstDifference(a, b, i);
    assert b[..i] == a[..i];
    assert ChainHash(b[i].prev, b[i].content) == b[i].hash;
  }

  /** The same links and digests over contents some of which were edited afterwards. */
  ghost predicate Edited(b: seq<Row>, a: seq<Row>) {
    |b| == |a| && forall i :: 0 <= i < |a| ==> b[i].prev == a[i].prev && b[i].hash == a[i].hash
  }

  /** Without rehashing, the first edited row is exactly where verification stops. */
  lemma EditsShowAtFirstEdit(a: seq<Row>, b: seq<Row>, k: nat)
    requires Intact(a) && Edited(b, a)
    ensures FirstBreak(b, k) <==>
              k < |a| && b[k].content != a[k].content && forall j :: 0 <= j < k ==> b[j].content == a[j].content
    ensures FirstBreak(b, k) ==> ReasonAt(b, k) == RowEdited
  {
    forall i | 0 <= i < |a| ensures Linked(b, i) <==> b[i].content == a[i].content {
      assert Linked(a, i);
      assert i > 0 ==> b[i - 1].hash == a[i - 1].hash;
      assert Tip(b[..i]) == Tip(a[..i]);
    }
    if FirstBreak(b, k) {
      assert Linked(a, k);
      assert Tip(b[..k]) == Tip(a[..k]);
    }
  }
}
