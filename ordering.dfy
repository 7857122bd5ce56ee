/** Ordering by an integer key: the upper-bound insertion position of
    lodash's `sortedLastIndexBy`, insertion at that position, and the stable
    sort that `Array.prototype.sort` performs with a key comparator. */
module Ordering {

  predicate SortedBy<T>(s: seq<T>, key: T -> int) {
    forall i, j :: 0 <= i < j < |s| ==> key(s[i]) <= key(s[j])
  }

  /** The first position whose key exceeds `t`: on a sorted sequence,
      everything before it has a key at most `t` and everything from it on a
      key above `t`. */
  function UpperBound<T>(s: seq<T>, t: int, key: T -> int): (k: nat)
    ensures k <= |s|
    ensures forall i :: 0 <= i < k ==> key(s[i]) <= t
    ensures k < |s| ==> key(s[k]) > t
    ensures SortedBy(s, key) ==> forall i :: k <= i < |s| ==> key(s[i]) > t
  {
    if s == [] || key(s[0]) > t then 0 else 1 + UpperBound(s[1..], t, key)
  }

  /** Any position that splits `s` into keys at most `t` and keys above `t`
      is the upper bound. */
  lemma UpperBoundUnique<T>(s: seq<T>, t: int, key: T -> int, k: nat)
    requires k <= |s|
    requires forall i :: 0 <= i < k ==> key(s[i]) <= t
    requires k < |s| ==> key(s[k]) > t
    ensures k == UpperBound(s, t, key)
  {
  }

  /** `x` inserted after every element whose key is at most its own. */
  function InsertBy<T>(s: seq<T>, x: T, key: T -> int): (r: seq<T>)
    ensures |r| == |s| + 1
  {
    var k := UpperBound(s, key(x), key);
    s[..k] + [x] + s[k..]
  }

  /** Where an insertion lands in a sorted sequence: after every element
      whose key is at most its own and before every element whose key is
      larger, with the other elements in their old order around it. */
  lemma InsertByPlacement<T>(s: seq<T>, x: T, key: T -> int)
    requires SortedBy(s, key)
    ensures var r, k := InsertBy(s, x, key), UpperBound(s, key(x), key);
            && r[k] == x && r[..k] == s[..k] && r[k + 1..] == s[k..]
            && (forall i :: 0 <= i < k ==> key(r[i]) <= key(x))
            && (forall i :: k < i < |r| ==> key(r[i]) > key(x))
  {
    var r, k := InsertBy(s, x, key), UpperBound(s, key(x), key);
    forall i | k < i < |r|
      ensures key(r[i]) > key(x)
    {
      assert r[i] == s[i - 1];
    }
  }

  lemma InsertBySorted<T>(s: seq<T>, x: T, key: T -> int)
    requires SortedBy(s, key)
    ensures SortedBy(InsertBy(s, x, key), key)
  {
  }

  lemma InsertByMultiset<T>(s: seq<T>, x: T, key: T -> int)
    ensures multiset(InsertBy(s, x, key)) == multiset(s) + multiset{x}
  {
    var k := UpperBound(s, key(x), key);
    assert s == s[..k] + s[k..];
  }

  /** Two insertions with the same key land side by side, in call order,
      after every element with that key or a smaller one. */
  lemma InsertByTwice<T>(s: seq<T>, a: T, b: T, key: T -> int)
    requires key(a) == key(b)
    ensures var k := UpperBound(s, key(a), key);
            InsertBy(InsertBy(s, a, key), b, key) == s[..k] + [a, b] + s[k..]
  {
    var k := UpperBound(s, key(a), key);
    var r := InsertBy(s, a, key);
    UpperBoundAfterInsert(s, a, key);
    assert r[..k + 1] == s[..k] + [a] && r[k + 1..] == s[k..];
    assert s[..k] + [a] + [b] + s[k..] == s[..k] + [a, b] + s[k..];
  }

  /** After inserting `x`, the upper bound for its key is just past `x`. */
  lemma UpperBoundAfterInsert<T>(s: seq<T>, x: T, key: T -> int)
    ensures UpperBound(InsertBy(s, x, key), key(x), key) == UpperBound(s, key(x), key) + 1
  {
    var k := UpperBound(s, key(x), key);
    var r := InsertBy(s, x, key);
    assert forall i :: 0 <= i < k ==> r[i] == s[i];
    assert r[k] == x;
    assert k + 1 < |r| ==> r[k + 1] == s[k];
    UpperBoundUnique(r, key(x), key, k + 1);
  }

  /** Stable sort by key: insertion sort placing each element after the
      equal-keyed ones already placed. */
  function SortBy<T>(s: seq<T>, key: T -> int): (r: seq<T>)
    ensures |r| == |s|
    ensures SortedBy(r, key)
  {
    if s == [] then []
    else
      InsertBySorted(SortBy(s[..|s| - 1], key), s[|s| - 1], key);
      InsertBy(SortBy(s[..|s| - 1], key), s[|s| - 1], key)
  }

  /** The sort rearranges its input: it neither drops nor adds elements. */
  lemma {:induction false} SortByPermutation<T>(s: seq<T>, key: T -> int)
    ensures multiset(SortBy(s, key)) == multiset(s)
    decreases |s|
  {
    if s != [] {
      SortByPermutation(s[..|s| - 1], key);
      InsertByMultiset(SortBy(s[..|s| - 1], key), s[|s| - 1], key);
      assert s == s[..|s| - 1] + [s[|s| - 1]];
    }
  }

  /** The elements of `s` whose key is `t`, in their order in `s`. */
  function WithKey<T>(s: seq<T>, t: int, key: T -> int): seq<T> {
    if s == [] then []
    else WithKey(s[..|s| - 1], t, key) + (if key(s[|s| - 1]) == t then [s[|s| - 1]] else [])
  }

  lemma {:induction false} WithKeyAppend<T>(a: seq<T>, b: seq<T>, t: int, key: T -> int)
    ensures WithKey(a + b, t, key) == WithKey(a, t, key) + WithKey(b, t, key)
    decreases |b|
  {
    if b == [] {
      assert a + b == a;
    } else {
      assert (a + b)[..|a + b| - 1] == a + b[..|b| - 1];
      WithKeyAppend(a, b[..|b| - 1], t, key);
    }
  }

  lemma {:induction false} WithKeyNone<T>(s: seq<T>, t: int, key: T -> int)
    requires forall i :: 0 <= i < |s| ==> key(s[i]) != t
    ensures WithKey(s, t, key) == []
    decreases |s|
  {
    if s != [] {
      WithKeyNone(s[..|s| - 1], t, key);
    }
  }

  /** Inserting keeps the order among equal keys, with `x` after the old ones. */
  lemma InsertByWithKey<T>(s: seq<T>, x: T, t: int, key: T -> int)
    requires forall i :: UpperBound(s, key(x), key) <= i < |s| ==> key(s[i]) > key(x)
    ensures WithKey(InsertBy(s, x, key), t, key)
         == WithKey(s, t, key) + (if key(x) == t then [x] else [])
  {
    var k := UpperBound(s, key(x), key);
    var p, q := s[..k], s[k..];
    forall i | 0 <= i < |q|
      ensures key(q[i]) > key(x)
    {
      assert q[i] == s[k + i];
    }
    WithKeySplice(p, x, q, t, key);
    assert s == p + q;
  }

  lemma WithKeySplice<T>(p: seq<T>, x: T, q: seq<T>, t: int, key: T -> int)
    requires forall i :: 0 <= i < |q| ==> key(q[i]) > key(x)
    ensures WithKey(p + [x] + q, t, key)
         == WithKey(p + q, t, key) + (if key(x) == t then [x] else [])
  {
    WithKeyAppend(p, q, t, key);
    WithKeyAppend(p + [x], q, t, key);
    WithKeyAppend(p, [x], t, key);
    assert WithKey([x], t, key) == (if key(x) == t then [x] else []) by {
      assert [x][..0] == [];
    }
    if key(x) == t {
      WithKeyNone(q, t, key);
    }
  }

  /** The sort is stable: the elements of any one key keep their order. */
  lemma {:induction false} SortByStable<T>(s: seq<T>, t: int, key: T -> int)
    ensures WithKey(SortBy(s, key), t, key) == WithKey(s, t, key)
    decreases |s|
  {
    if s != [] {
      SortByStable(s[..|s| - 1], t, key);
      InsertByWithKey(SortBy(s[..|s| - 1], key), s[|s| - 1], t, key);
    }
  }
}
