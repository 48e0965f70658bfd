/**
 The order in which the allocator scans candidates.

 Every pass of the allocator sorts before it commits, with a stable sort that puts the
 largest key first. One of the keys (value density) is infinite for a free action.
 */
module Sorting {

  datatype Key = Infinite | Finite(value: real)

  predicate AtLeast(a: Key, b: Key) {
    a.Infinite? || (b.Finite? && a.value >= b.value)
  }

  ghost predicate Descending<T(!new)>(key: T -> Key, s: seq<T>) {
    forall i, j :: 0 <= i < j < |s| ==> AtLeast(key(s[i]), key(s[j]))
  }

  function Filter<T(!new)>(p: T -> bool, s: seq<T>): (r: seq<T>)
    ensures forall x :: x in r <==> x in s && p(x)
  {
    if s == [] then []
    else if p(s[0]) then [s[0]] + Filter(p, s[1..])
    else Filter(p, s[1..])
  }

  /** Places x in front of the first element it is not smaller than. */
  function Insert<T(!new)>(key: T -> Key, x: T, s: seq<T>): (r: seq<T>)
    ensures multiset(r) == multiset{x} + multiset(s)
  {
    if s == [] then [x]
    else if AtLeast(key(x), key(s[0])) then [x] + s
    else
      assert s == [s[0]] + s[1..];
      [s[0]] + Insert(key, x, s[1..])
  }

  /** The stable sort with the largest key first. */
  function SortDesc<T(!new)>(key: T -> Key, s: seq<T>): (r: seq<T>)
    ensures multiset(r) == multiset(s)
  {
    if s == [] then []
    else
      assert s == [s[0]] + s[1..];
      Insert(key, s[0], SortDesc(key, s[1..]))
  }

  lemma {:induction false} InsertKeepsOrder<T(!new)>(key: T -> Key, x: T, s: seq<T>)
    requires Descending(key, s)
    ensures Descending(key, Insert(key, x, s))
  {
    if s != [] && !AtLeast(key(x), key(s[0])) {
      var rest := Insert(key, x, s[1..]);
      InsertKeepsOrder(key, x, s[1..]);
      forall j | 0 <= j < |rest|
        ensures AtLeast(key(s[0]), key(rest[j]))
      {
        assert rest[j] in multiset(rest);
        assert rest[j] == x || rest[j] in s[1..];
      }
    }
  }

  lemma {:induction false} SortOrders<T(!new)>(key: T -> Key, s: seq<T>)
    ensures Descending(key, SortDesc(key, s))
  {
    if s != [] {
      SortOrders(key, s[1..]);
      InsertKeepsOrder(key, s[0], SortDesc(key, s[1..]));
    }
  }

  lemma SameElements<T(!new)>(key: T -> Key, s: seq<T>)
    ensures |SortDesc(key, s)| == |s|
    ensures forall x :: x in SortDesc(key, s) <==> x in s
  {
    var r := SortDesc(key, s);
    assert |multiset(r)| == |multiset(s)|;
    assert forall x :: x in r <==> x in multiset(r);
    assert forall x :: x in s <==> x in multiset(s);
  }

  function HasKey<T(!new)>(key: T -> Key, k: Key): T -> bool {
    x => key(x) == k
  }

  lemma {:induction false} FilterInsert<T(!new)>(key: T -> Key, k: Key, x: T, s: seq<T>)
    requires Descending(key, s)
    ensures Filter(HasKey(key, k), Insert(key, x, s))
         == (if key(x) == k then [x] else []) + Filter(HasKey(key, k), s)
  {
    var p := HasKey(key, k);
    if s == [] {
      assert Insert(key, x, s)[1..] == [];
    } else if AtLeast(key(x), key(s[0])) {
      assert ([x] + s)[1..] == s;
    } else {
      FilterInsert(key, k, x, s[1..]);
      var rest := Insert(key, x, s[1..]);
      assert ([s[0]] + rest)[1..] == rest;
      if key(x) == k {
        assert key(s[0]) != k;
      }
    }
  }

  /** Stability: elements with equal keys keep their original relative order. */
  lemma {:induction false} SortIsStable<T(!new)>(key: T -> Key, k: Key, s: seq<T>)
    ensures Filter(HasKey(key, k), SortDesc(key, s)) == Filter(HasKey(key, k), s)
  {
    if s != [] {
      SortIsStable(key, k, s[1..]);
      SortOrders(key, s[1..]);
      FilterInsert(key, k, s[0], SortDesc(key, s[1..]));
    }
  }

  lemma {:induction false} FilterMultiplicity<T(!new)>(p: T -> bool, s: seq<T>, x: T)
    ensures multiset(Filter(p, s))[x] == if p(x) then multiset(s)[x] else 0
  {
    if s != [] {
      FilterMultiplicity(p, s[1..], x);
      assert s == [s[0]] + s[1..];
    }
  }

  /** Everything among the first n is at least as large as anything beyond them. */
  lemma PrefixDominates<T(!new)>(key: T -> Key, s: seq<T>, n: nat, x: T, y: T)
    requires Descending(key, s) && n <= |s|
    requires x in s[..n] && y in s && y !in s[..n]
    ensures AtLeast(key(x), key(y))
  {
    var i :| 0 <= i < n && s[i] == x;
    var j :| 0 <= j < |s| && s[j] == y;
    forall k | 0 <= k < n ensures s[k] in s[..n] {
      assert s[..n][k] == s[k];
    }
  }

  lemma {:induction false} FilterKeepsAll<T(!new)>(p: T -> bool, s: seq<T>)
    requires forall x :: x in s ==> p(x)
    ensures Filter(p, s) == s
  {
    if s != [] {
      assert s[0] in s && forall x :: x in s[1..] ==> x in s;
      FilterKeepsAll(p, s[1..]);
    }
  }

  lemma SortTwo<T(!new)>(key: T -> Key, b: T, c: T)
    requires AtLeast(key(b), key(c))
    ensures SortDesc(key, [b, c]) == [b, c]
  {
    assert [b, c][1..] == [c] && [c][1..] == [];
    assert SortDesc(key, [c]) == [c];
  }

  lemma SortThree<T(!new)>(key: T -> Key, a: T, b: T, c: T)
    requires AtLeast(key(b), key(c)) && AtLeast(key(a), key(c)) && !AtLeast(key(a), key(b))
    ensures SortDesc(key, [a, b, c]) == [b, a, c]
  {
    SortTwo(key, b, c);
    assert [a, b, c][1..] == [b, c] && [b, c][1..] == [c];
    assert Insert(key, a, [c]) == [a, c];
    assert Insert(key, a, [b, c]) == [b, a, c];
  }
}
