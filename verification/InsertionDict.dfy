/**
 A dictionary that remembers insertion order: assigning to a key already present replaces its
 value in place, and iteration goes in the order the keys first appeared.
*/
module InsertionDict {
  import opened Options

  type Dict<K, V> = seq<(K, V)>

  ghost predicate DistinctKeys<K, V>(d: Dict<K, V>) {
    forall i, j :: 0 <= i < j < |d| ==> d[i].0 != d[j].0
  }

  predicate Has<K(==), V>(d: Dict<K, V>, k: K) {
    exists i :: 0 <= i < |d| && d[i].0 == k
  }

  /** The position of a key, or the length if it is absent. */
  function Find<K(==), V>(d: Dict<K, V>, k: K): (i: nat)
    ensures i <= |d|
    ensures i < |d| ==> d[i].0 == k
    ensures forall j :: 0 <= j < i ==> d[j].0 != k
  {
    if d == [] || d[0].0 == k then 0
    else
      var rest := Find(d[1..], k);
      assert forall j :: 1 <= j < 1 + rest ==> d[j] == d[1..][j - 1];
      1 + rest
  }

  function Get<K(==), V>(d: Dict<K, V>, k: K): (v: Option<V>)
    ensures v.Some? <==> Has(d, k)
    ensures v.Some? ==> (k, v.value) in d
  {
    var i := Find(d, k);
    if i < |d| then Some(d[i].1) else None
  }

  function Put<K(==), V>(d: Dict<K, V>, k: K, v: V): Dict<K, V> {
    var i := Find(d, k);
    if i < |d| then d[i := (k, v)] else d + [(k, v)]
  }

  /** The dictionary that a list of assignments leaves. */
  function Build<K(==), V>(pairs: seq<(K, V)>): Dict<K, V> {
    if pairs == [] then []
    else Put(Build(pairs[..|pairs| - 1]), pairs[|pairs| - 1].0, pairs[|pairs| - 1].1)
  }

  lemma PutKeeps<K, V>(d: Dict<K, V>, k: K, v: V)
    requires DistinctKeys(d)
    ensures var e := Put(d, k, v);
            && DistinctKeys(e)
            && |e| == (if Has(d, k) then |d| else |d| + 1)
            && (forall x :: Has(e, x) <==> x == k || Has(d, x))
            && (forall p :: p in e ==> p == (k, v) || p in d)
            && (k, v) in e
  {
    var e := Put(d, k, v);
    var i := Find(d, k);
    assert e[if i < |d| then i else |d|] == (k, v);
    forall x ensures Has(e, x) <==> x == k || Has(d, x) {
      if Has(d, x) && x != k {
        var j :| 0 <= j < |d| && d[j].0 == x;
        assert e[j].0 == x;
      }
    }
  }

  lemma HasExtended<K, V>(rest: seq<(K, V)>, last: (K, V), k: K)
    ensures Has(rest + [last], k) <==> k == last.0 || Has(rest, k)
  {
    var pairs := rest + [last];
    assert pairs[|rest|] == last;
    if Has(rest, k) {
      var j :| 0 <= j < |rest| && rest[j].0 == k;
      assert pairs[j].0 == k;
    }
  }

  lemma DistinctExtended<K, V>(rest: seq<(K, V)>, last: (K, V))
    ensures DistinctKeys(rest + [last]) <==> DistinctKeys(rest) && !Has(rest, last.0)
  {
    var pairs := rest + [last];
    assert pairs[|rest|] == last && forall i :: 0 <= i < |rest| ==> pairs[i] == rest[i];
    if DistinctKeys(pairs) {
      forall i, j | 0 <= i < j < |rest| ensures rest[i].0 != rest[j].0 {
        assert pairs[i].0 != pairs[j].0;
      }
    }
  }

  /** Keys end up distinct, every value was assigned to its key, and every assigned key is there. */
  lemma {:induction false} BuildHolds<K, V>(pairs: seq<(K, V)>)
    ensures DistinctKeys(Build(pairs))
    ensures forall p :: p in Build(pairs) ==> p in pairs
    ensures forall k :: Has(Build(pairs), k) <==> Has(pairs, k)
  {
    if pairs != [] {
      var rest, last := pairs[..|pairs| - 1], pairs[|pairs| - 1];
      assert pairs == rest + [last];
      BuildHolds(rest);
      PutKeeps(Build(rest), last.0, last.1);
      forall k ensures Has(Build(pairs), k) <==> Has(pairs, k) {
        HasExtended(rest, last, k);
      }
    }
  }

  lemma PutGets<K, V>(d: Dict<K, V>, k: K, v: V, x: K)
    ensures Get(Put(d, k, v), x) == if x == k then Some(v) else Get(d, x)
  {
    var e, i := Put(d, k, v), Find(d, k);
    FindIsFirst(e, k, i);
    if x != k {
      var j := Find(d, x);
      if j < |d| {
        assert e[j] == d[j];
        FindIsFirst(e, x, j);
      } else {
        assert forall n :: 0 <= n < |e| ==> e[n].0 != x;
      }
    }
  }

  lemma FindIsFirst<K, V>(d: Dict<K, V>, k: K, i: nat)
    requires i < |d| && d[i].0 == k && forall j :: 0 <= j < i ==> d[j].0 != k
    ensures Find(d, k) == i
  {
  }

  /** The value of a key is the one it was last assigned. */
  lemma {:induction false} LastAssignmentWins<K, V>(pairs: seq<(K, V)>, i: nat)
    requires i < |pairs| && forall j :: i < j < |pairs| ==> pairs[j].0 != pairs[i].0
    ensures Get(Build(pairs), pairs[i].0) == Some(pairs[i].1)
  {
    var rest, last := pairs[..|pairs| - 1], pairs[|pairs| - 1];
    PutGets(Build(rest), last.0, last.1, pairs[i].0);
    if i < |rest| {
      LastAssignmentWins(rest, i);
    }
  }

  /** Nothing was overwritten exactly when no key was assigned twice. */
  lemma {:induction false} BuildSize<K, V>(pairs: seq<(K, V)>)
    ensures |Build(pairs)| <= |pairs|
    ensures |Build(pairs)| == |pairs| <==> DistinctKeys(pairs)
  {
    if pairs != [] {
      var rest, last := pairs[..|pairs| - 1], pairs[|pairs| - 1];
      assert pairs == rest + [last];
      BuildSize(rest);
      BuildHolds(rest);
      PutKeeps(Build(rest), last.0, last.1);
      DistinctExtended(rest, last);
    }
  }
}
