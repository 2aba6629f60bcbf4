/** The stable sort by a numeric key that `Array.prototype.sort` performs with a key-difference comparator. */
module Sorting {
  import Seqs

  predicate SortedBy<T>(s: seq<T>, key: T -> real) {
    forall i, j :: 0 <= i < j < |s| ==> key(s[i]) <= key(s[j])
  }

  /** Insert `x` before the first element whose key is not smaller. */
  function Insert<T>(x: T, s: seq<T>, key: T -> real): (r: seq<T>)
    requires SortedBy(s, key)
    ensures SortedBy(r, key)
    ensures multiset(r) == multiset(s) + multiset{x}
    ensures |r| == |s| + 1
    ensures key(r[0]) == key(x) || (|s| > 0 && key(r[0]) == key(s[0]))
  {
    if s == [] || key(x) <= key(s[0]) then [x] + s
    else
      var rest := Insert(x, s[1..], key);
      assert s == [s[0]] + s[1..];
      assert key(s[0]) <= key(rest[0]);
      [s[0]] + rest
  }

  /**
   * The stable sort by `key`: an insertion sort that places each element before the equal ones
   * already placed. A stable sort is determined by its order, so this is the order any stable
   * sort with the comparator `key(a) - key(b)` produces.
   */
  function SortBy<T>(s: seq<T>, key: T -> real): (r: seq<T>)
    ensures SortedBy(r, key)
    ensures multiset(r) == multiset(s)
  {
    if s == [] then []
    else
      assert s == [s[0]] + s[1..];
      Insert(s[0], SortBy(s[1..], key), key)
  }

  function KeyIs<T>(key: T -> real, k: real): T -> bool {
    x => key(x) == k
  }

  lemma {:induction false} InsertKeepsTies<T>(x: T, t: seq<T>, key: T -> real, k: real)
    requires SortedBy(t, key)
    ensures Seqs.Filter(Insert(x, t, key), KeyIs(key, k)) == (if key(x) == k then [x] else []) + Seqs.Filter(t, KeyIs(key, k))
  {
    var p := KeyIs(key, k);
    if t == [] || key(x) <= key(t[0]) {
      var r := [x] + t;
      assert r[0] == x && r[1..] == t;
    } else {
      var rest := Insert(x, t[1..], key);
      InsertKeepsTies(x, t[1..], key, k);
      var r := [t[0]] + rest;
      assert r[0] == t[0] && r[1..] == rest;
      var head := if p(t[0]) then [t[0]] else [];
      assert Seqs.Filter(r, p) == head + Seqs.Filter(rest, p);
      assert Seqs.Filter(t, p) == head + Seqs.Filter(t[1..], p);
      if key(x) == k {
        assert head == [];
      }
    }
  }

  /** Stability: the elements sharing any one key keep their original relative order. */
  lemma {:induction false} SortByStable<T>(s: seq<T>, key: T -> real, k: real)
    ensures Seqs.Filter(SortBy(s, key), KeyIs(key, k)) == Seqs.Filter(s, KeyIs(key, k))
  {
    if s != [] {
      SortByStable(s[1..], key, k);
      InsertKeepsTies(s[0], SortBy(s[1..], key), key, k);
    }
  }

  /** The list read from the end. */
  function Reverse<T>(s: seq<T>): (r: seq<T>)
    ensures |r| == |s|
    ensures forall i :: 0 <= i < |s| ==> r[i] == s[|s| - 1 - i]
  {
    if s == [] then [] else Reverse(s[1..]) + [s[0]]
  }

  lemma {:induction false} ReversePermutes<T>(s: seq<T>)
    ensures multiset(Reverse(s)) == multiset(s)
  {
    if s != [] {
      ReversePermutes(s[1..]);
      assert s == [s[0]] + s[1..];
    }
  }

  /** A list ordered by a key, read backwards, is ordered by the negated key. */
  lemma ReverseSortedBy<T>(s: seq<T>, key: T -> real, negated: T -> real)
    requires SortedBy(s, key)
    requires forall x :: negated(x) == -key(x)
    ensures SortedBy(Reverse(s), negated)
  {
    var r := Reverse(s);
    forall i, j | 0 <= i < j < |r|
      ensures negated(r[i]) <= negated(r[j])
    {
      assert key(s[|s| - 1 - j]) <= key(s[|s| - 1 - i]);
    }
  }

  /** Within `m`, elements with the same key are the same element. */
  predicate KeyDetermines<T>(m: multiset<T>, key: T -> real) {
    forall x, y :: x in m && y in m && key(x) == key(y) ==> x == y
  }

  /**
   * Two lists ordered by the same key that hold the same elements are the same list, once the
   * key tells the elements apart.
   */
  lemma {:induction false} SortedPermutationUnique<T>(a: seq<T>, b: seq<T>, key: T -> real)
    requires SortedBy(a, key) && SortedBy(b, key)
    requires multiset(a) == multiset(b)
    requires KeyDetermines(multiset(a), key)
    ensures a == b
    decreases |a|
  {
    assert |a| == |multiset(a)| == |multiset(b)| == |b|;
    if a != [] {
      SameHead(a, b, key);
      TailsPermute(a, b);
      assert SortedBy(a[1..], key) && SortedBy(b[1..], key);
      TailKeyDetermines(a, key);
      SortedPermutationUnique(a[1..], b[1..], key);
    }
  }

  /** Dropping the same first element from two lists with the same elements leaves the same elements. */
  lemma TailsPermute<T>(a: seq<T>, b: seq<T>)
    requires a != [] && b != [] && a[0] == b[0]
    requires multiset(a) == multiset(b)
    ensures multiset(a[1..]) == multiset(b[1..])
  {
    assert a == [a[0]] + a[1..] && b == [b[0]] + b[1..];
    var ta, tb := multiset(a[1..]), multiset(b[1..]);
    assert multiset{a[0]} + ta == multiset{a[0]} + tb;
    forall x ensures ta[x] == tb[x] {
      assert (multiset{a[0]} + ta)[x] == (multiset{a[0]} + tb)[x];
    }
  }

  /** An element of the tail is an element of the list, so the key still tells the tail's elements apart. */
  lemma TailKeyDetermines<T>(a: seq<T>, key: T -> real)
    requires a != [] && KeyDetermines(multiset(a), key)
    ensures KeyDetermines(multiset(a[1..]), key)
  {
    forall x, y | x in multiset(a[1..]) && y in multiset(a[1..]) && key(x) == key(y)
      ensures x == y
    {
      assert x in a[1..] && y in a[1..];
      assert x in a && y in a;
    }
  }

  /** Both lists start with the element of least key, and the key names it. */
  lemma SameHead<T>(a: seq<T>, b: seq<T>, key: T -> real)
    requires a != [] && |a| == |b|
    requires SortedBy(a, key) && SortedBy(b, key)
    requires multiset(a) == multiset(b)
    requires KeyDetermines(multiset(a), key)
    ensures a[0] == b[0]
  {
    assert a[0] in multiset(b);
    var j :| 0 <= j < |b| && b[j] == a[0];
    assert b[0] in multiset(a);
    var i :| 0 <= i < |a| && a[i] == b[0];
    assert key(b[0]) <= key(b[j]) && key(a[0]) <= key(a[i]);
  }
}
