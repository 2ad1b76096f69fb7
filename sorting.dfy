/** `Array.prototype.sort` with a descending numeric comparator (`(a, b) => key(b) - key(a)`):
    a stable sort, modelled as an insertion sort. */
module Sorting {
  import opened Common

  predicate SortedDesc<T>(s: seq<T>, key: T -> int)
  {
    forall i, j :: 0 <= i < j < |s| ==> key(s[i]) >= key(s[j])
  }

  /** Puts `x` before the first element whose key is not higher than its own. */
  function InsertDesc<T>(x: T, t: seq<T>, key: T -> int): (r: seq<T>)
    ensures multiset(r) == multiset(t) + multiset{x}
  {
    if t == [] || key(x) >= key(t[0]) then [x] + t
    else
      assert t == [t[0]] + t[1..];
      [t[0]] + InsertDesc(x, t[1..], key)
  }

  /** Inserting a key no higher than a bound into a list below the bound stays below it. */
  lemma {:induction false} InsertDescBelow<T>(x: T, t: seq<T>, key: T -> int, b: int)
    requires key(x) <= b
    requires forall i :: 0 <= i < |t| ==> key(t[i]) <= b
    ensures forall i :: 0 <= i < |InsertDesc(x, t, key)| ==> key(InsertDesc(x, t, key)[i]) <= b
  {
    if t != [] && key(x) < key(t[0]) {
      InsertDescBelow(x, t[1..], key, b);
    }
  }

  /** Inserting into a descending list keeps it descending. */
  lemma {:induction false} InsertDescSorted<T>(x: T, t: seq<T>, key: T -> int)
    requires SortedDesc(t, key)
    ensures SortedDesc(InsertDesc(x, t, key), key)
  {
    if t != [] && key(x) < key(t[0]) {
      var rest := InsertDesc(x, t[1..], key);
      InsertDescSorted(x, t[1..], key);
      InsertDescBelow(x, t[1..], key, key(t[0]));
      var r := [t[0]] + rest;
      assert forall j :: 1 <= j < |r| ==> r[j] == rest[j - 1];
    }
  }

  /** The sort: a permutation of its input, in descending key order. */
  function SortDesc<T>(s: seq<T>, key: T -> int): (r: seq<T>)
    ensures multiset(r) == multiset(s)
    ensures SortedDesc(r, key)
  {
    if s == [] then []
    else
      assert s == [s[0]] + s[1..];
      InsertDescSorted(s[0], SortDesc(s[1..], key), key);
      InsertDesc(s[0], SortDesc(s[1..], key), key)
  }

  /** Inserting puts the new element first among those sharing its key. */
  lemma {:induction false} InsertDescStable<T>(x: T, t: seq<T>, key: T -> int, k: int)
    ensures Filter(InsertDesc(x, t, key), (y: T) => key(y) == k)
         == (if key(x) == k then [x] else []) + Filter(t, (y: T) => key(y) == k)
  {
    if t == [] || key(x) >= key(t[0]) {
      assert ([x] + t)[1..] == t;
    } else {
      InsertDescStable(x, t[1..], key, k);
      assert ([t[0]] + InsertDesc(x, t[1..], key))[1..] == InsertDesc(x, t[1..], key);
    }
  }

  /** The sort is stable: the elements of each key come out in their original order. */
  lemma {:induction false} SortDescStable<T>(s: seq<T>, key: T -> int, k: int)
    ensures Filter(SortDesc(s, key), (y: T) => key(y) == k) == Filter(s, (y: T) => key(y) == k)
  {
    if s != [] {
      SortDescStable(s[1..], key, k);
      InsertDescStable(s[0], SortDesc(s[1..], key), key, k);
    }
  }

  /** Sorting keeps exactly the elements it was given. */
  lemma SortDescMembers<T>(s: seq<T>, key: T -> int)
    ensures forall x :: x in SortDesc(s, key) <==> x in s
  {
    var r := SortDesc(s, key);
    assert forall x :: x in r <==> x in multiset(r);
    assert forall x :: x in s <==> x in multiset(s);
  }

  /** Cutting a sorted sequence keeps its best elements: whatever is cut off has a key no
      higher than anything kept. */
  lemma PrefixKeepsTop<T>(s: seq<T>, key: T -> int, k: nat)
    requires SortedDesc(s, key) && k <= |s|
    ensures forall y, i :: y in multiset(s) - multiset(s[..k]) && 0 <= i < k ==> key(y) <= key(s[i])
  {
    assert s == s[..k] + s[k..];
    assert multiset(s) - multiset(s[..k]) == multiset(s[k..]);
    forall y, i | y in multiset(s) - multiset(s[..k]) && 0 <= i < k
      ensures key(y) <= key(s[i])
    {
      assert y in s[k..];
      var j :| k <= j < |s| && s[j] == y;
    }
  }
}
