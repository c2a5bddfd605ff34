/**
 * Array.prototype.sort with a comparator of the form `(a, b) => key(a) - key(b)`.
 * From the 2019 edition of ECMA-262 on the sort is stable, so its result is the
 * unique list that is a permutation of the input, ordered by non-decreasing key,
 * and in which elements with equal keys keep their input order. SortBy is one
 * such list (insertion sort); StableSortIsUnique shows every other is the same list.
 */
module StableSort {

  /** `s` is ordered by non-decreasing key. */
  predicate SortedBy<T>(s: seq<T>, key: T -> int)
  {
    forall i, j :: 0 <= i < j < |s| ==> key(s[i]) <= key(s[j])
  }

  /** The elements of `s` whose key is `k`, in their order in `s`. */
  function WithKey<T>(s: seq<T>, key: T -> int, k: int): seq<T>
  {
    if s == [] then []
    else (if key(s[0]) == k then [s[0]] else []) + WithKey(s[1..], key, k)
  }

  /** Puts `x` just before the first element of `s` whose key is not smaller than its own. */
  function Insert<T>(x: T, s: seq<T>, key: T -> int): seq<T>
    decreases |s|
  {
    if s == [] || key(x) <= key(s[0]) then [x] + s
    else [s[0]] + Insert(x, s[1..], key)
  }

  lemma {:induction false} InsertPermutes<T>(x: T, s: seq<T>, key: T -> int)
    ensures multiset(Insert(x, s, key)) == multiset(s) + multiset{x}
    decreases |s|
  {
    if s == [] || key(x) <= key(s[0]) {
    } else {
      InsertPermutes(x, s[1..], key);
      assert s == [s[0]] + s[1..];
    }
  }

  /** Every element `Insert` passes over has a smaller key than `x`, so `x` leads its ties. */
  lemma {:induction false} InsertTies<T>(x: T, s: seq<T>, key: T -> int)
    ensures forall k :: WithKey(Insert(x, s, key), key, k)
                        == (if key(x) == k then [x] else []) + WithKey(s, key, k)
    decreases |s|
  {
    if s == [] || key(x) <= key(s[0]) {
      assert ([x] + s)[0] == x;
      assert ([x] + s)[1..] == s;
    } else {
      var rest := Insert(x, s[1..], key);
      InsertTies(x, s[1..], key);
      assert ([s[0]] + rest)[0] == s[0];
      assert ([s[0]] + rest)[1..] == rest;
    }
  }

  lemma SortedTail<T>(s: seq<T>, key: T -> int)
    requires s != [] && SortedBy(s, key)
    ensures SortedBy(s[1..], key)
  {
    forall i, j | 0 <= i < j < |s[1..]| ensures key(s[1..][i]) <= key(s[1..][j]) {
      assert s[1..][i] == s[i + 1] && s[1..][j] == s[j + 1];
    }
  }

  lemma SortedCons<T>(h: T, t: seq<T>, key: T -> int)
    requires SortedBy(t, key)
    requires forall j :: 0 <= j < |t| ==> key(h) <= key(t[j])
    ensures SortedBy([h] + t, key)
  {
    var r := [h] + t;
    forall i, j | 0 <= i < j < |r| ensures key(r[i]) <= key(r[j]) {
      assert r[j] == t[j - 1];
      if i > 0 {
        assert r[i] == t[i - 1];
      }
    }
  }

  lemma {:induction false} InsertSorted<T>(x: T, s: seq<T>, key: T -> int)
    requires SortedBy(s, key)
    ensures SortedBy(Insert(x, s, key), key)
    decreases |s|
  {
    if s == [] || key(x) <= key(s[0]) {
      SortedCons(x, s, key);
    } else {
      var rest := Insert(x, s[1..], key);
      SortedTail(s, key);
      InsertSorted(x, s[1..], key);
      InsertPermutes(x, s[1..], key);
      forall j | 0 <= j < |rest| ensures key(s[0]) <= key(rest[j]) {
        assert rest[j] in multiset(rest);
        if rest[j] != x {
          assert rest[j] in s[1..];
        }
      }
      SortedCons(s[0], rest, key);
    }
  }

  /** The stable sort by key. */
  function SortBy<T>(xs: seq<T>, key: T -> int): (r: seq<T>)
    ensures multiset(r) == multiset(xs)
    ensures SortedBy(r, key)
    ensures forall k :: WithKey(r, key, k) == WithKey(xs, key, k)
  {
    if xs == [] then []
    else
      var rest := SortBy(xs[1..], key);
      InsertPermutes(xs[0], rest, key);
      InsertSorted(xs[0], rest, key);
      InsertTies(xs[0], rest, key);
      assert xs == [xs[0]] + xs[1..];
      Insert(xs[0], rest, key)
  }

  /** Two sorted permutations of each other start with the same key. */
  lemma SameLeadingKey<T>(a: seq<T>, b: seq<T>, key: T -> int)
    requires a != [] && multiset(a) == multiset(b)
    requires SortedBy(a, key) && SortedBy(b, key)
    ensures b != [] && key(a[0]) == key(b[0])
  {
    assert a[0] in multiset(b);
    assert b[0] in multiset(a);
    assert a[0] in b && b[0] in a;
  }

  /** Dropping the head of a list drops it from its own key group only. */
  lemma WithKeyTail<T>(a: seq<T>, key: T -> int, k: int)
    requires a != []
    ensures WithKey(a, key, k) == (if key(a[0]) == k then [a[0]] else []) + WithKey(a[1..], key, k)
  {
  }

  /** Agreeing on the group of their common leading key, two lists start with the same element. */
  lemma SameHead<T>(a: seq<T>, b: seq<T>, key: T -> int)
    requires a != [] && b != [] && key(a[0]) == key(b[0])
    requires WithKey(a, key, key(a[0])) == WithKey(b, key, key(a[0]))
    ensures a[0] == b[0]
  {
    WithKeyTail(a, key, key(a[0]));
    WithKeyTail(b, key, key(a[0]));
    assert WithKey(a, key, key(a[0]))[0] == a[0];
    assert WithKey(b, key, key(a[0]))[0] == b[0];
  }

  /** Two lists with the same head that agree on the key group `k` agree on it after the head. */
  lemma SameTailGroup<T>(a: seq<T>, b: seq<T>, key: T -> int, k: int)
    requires a != [] && b != [] && a[0] == b[0]
    requires WithKey(a, key, k) == WithKey(b, key, k)
    ensures WithKey(a[1..], key, k) == WithKey(b[1..], key, k)
  {
    WithKeyTail(a, key, k);
    WithKeyTail(b, key, k);
    if key(a[0]) == k {
      assert WithKey(a[1..], key, k) == WithKey(a, key, k)[1..];
      assert WithKey(b[1..], key, k) == WithKey(b, key, k)[1..];
    } else {
      assert [] + WithKey(a[1..], key, k) == WithKey(a[1..], key, k);
      assert [] + WithKey(b[1..], key, k) == WithKey(b[1..], key, k);
    }
  }

  /**
   * Any two permutations of each other that are both ordered by key and agree on the
   * order of every group of equal keys are the same list.
   */
  lemma {:induction false} StableOrderUnique<T>(a: seq<T>, b: seq<T>, key: T -> int)
    requires multiset(a) == multiset(b)
    requires SortedBy(a, key) && SortedBy(b, key)
    requires forall k :: WithKey(a, key, k) == WithKey(b, key, k)
    ensures a == b
    decreases |a|
  {
    if a == [] {
      assert |b| == |multiset(b)| == 0;
    } else {
      SameLeadingKey(a, b, key);
      SameHead(a, b, key);
      forall k ensures WithKey(a[1..], key, k) == WithKey(b[1..], key, k) {
        SameTailGroup(a, b, key, k);
      }
      assert a == [a[0]] + a[1..] && b == [b[0]] + b[1..];
      assert multiset(a[1..]) == multiset(a) - multiset{a[0]};
      assert multiset(b[1..]) == multiset(b) - multiset{b[0]};
      StableOrderUnique(a[1..], b[1..], key);
    }
  }

  /** Every stable sort of `xs` by `key` returns exactly SortBy(xs, key). */
  lemma StableSortIsUnique<T>(xs: seq<T>, r: seq<T>, key: T -> int)
    requires multiset(r) == multiset(xs)
    requires SortedBy(r, key)
    requires forall k :: WithKey(r, key, k) == WithKey(xs, key, k)
    ensures r == SortBy(xs, key)
  {
    StableOrderUnique(r, SortBy(xs, key), key);
  }
}
