/**
 * The stable sort that Python's `sorted` and `list.sort` perform, for keys that are
 * pairs of integers compared lexicographically (the tuple keys of radar/run.py).
 */
module Sorting {

  /** Lexicographic order on pairs: Python's comparison of 2-tuples. */
  predicate KeyLe(a: (int, int), b: (int, int)) {
    a.0 < b.0 || (a.0 == b.0 && a.1 <= b.1)
  }

  predicate SortedBy<T>(s: seq<T>, key: T -> (int, int)) {
    forall i, j :: 0 <= i < j < |s| ==> KeyLe(key(s[i]), key(s[j]))
  }

  /** Inserts `x` before the first element whose key is not below its own. */
  function Insert<T>(x: T, s: seq<T>, key: T -> (int, int)): seq<T>
    decreases |s|
  {
    if s == [] then [x]
    else if KeyLe(key(x), key(s[0])) then [x] + s
    else [s[0]] + Insert(x, s[1..], key)
  }

  /** Insertion sort from the back: each element goes before the equal-keyed ones that follow it. */
  function SortBy<T>(s: seq<T>, key: T -> (int, int)): seq<T>
    decreases |s|
  {
    if s == [] then [] else Insert(s[0], SortBy(s[1..], key), key)
  }

  /** The elements of `s` whose key is `k`, in order. */
  function WithKey<T>(s: seq<T>, key: T -> (int, int), k: (int, int)): seq<T>
    decreases |s|
  {
    if s == [] then [] else (if key(s[0]) == k then [s[0]] else []) + WithKey(s[1..], key, k)
  }

  // ---------------------------------------------------------------------------
  // Lemmas

  /** Every key in `s` is at least `b`. */
  predicate AllAbove<T>(s: seq<T>, key: T -> (int, int), b: (int, int)) {
    forall i :: 0 <= i < |s| ==> KeyLe(b, key(s[i]))
  }

  lemma KeyLeTrans(a: (int, int), b: (int, int), c: (int, int))
    requires KeyLe(a, b) && KeyLe(b, c)
    ensures KeyLe(a, c)
  {
  }

  /** A list is sorted when its head is below its sorted tail. */
  lemma ConsSorted<T>(y: T, r: seq<T>, key: T -> (int, int))
    requires SortedBy(r, key) && AllAbove(r, key, key(y))
    ensures SortedBy([y] + r, key)
  {
    var out := [y] + r;
    forall i, j | 0 <= i < j < |out| ensures KeyLe(key(out[i]), key(out[j])) {
      assert out[j] == r[j - 1];
      if i > 0 { assert out[i] == r[i - 1]; }
    }
  }

  /** The tail of a sorted list is sorted and above its head. */
  lemma TailSorted<T>(s: seq<T>, key: T -> (int, int))
    requires SortedBy(s, key) && s != []
    ensures SortedBy(s[1..], key) && AllAbove(s[1..], key, key(s[0]))
  {
    var t := s[1..];
    forall i, j | 0 <= i < j < |t| ensures KeyLe(key(t[i]), key(t[j])) {
      assert t[i] == s[i + 1] && t[j] == s[j + 1];
    }
    forall i | 0 <= i < |t| ensures KeyLe(key(s[0]), key(t[i])) {
      assert t[i] == s[i + 1];
    }
  }

  /** Insertion keeps every lower bound that `x` and `s` share. */
  lemma {:induction false} InsertAbove<T>(x: T, s: seq<T>, key: T -> (int, int), b: (int, int))
    requires AllAbove(s, key, b) && KeyLe(b, key(x))
    ensures AllAbove(Insert(x, s, key), key, b)
    decreases |s|
  {
    if s != [] && !KeyLe(key(x), key(s[0])) {
      var t := s[1..];
      assert AllAbove(t, key, b) by {
        forall i | 0 <= i < |t| ensures KeyLe(b, key(t[i])) { assert t[i] == s[i + 1]; }
      }
      InsertAbove(x, t, key, b);
      var r := Insert(x, t, key);
      var out := [s[0]] + r;
      forall i | 0 <= i < |out| ensures KeyLe(b, key(out[i])) {
        if i > 0 { assert out[i] == r[i - 1]; }
      }
    } else if s != [] {
      var out := [x] + s;
      forall i | 0 <= i < |out| ensures KeyLe(b, key(out[i])) {
        if i > 0 { assert out[i] == s[i - 1]; }
      }
    }
  }

  lemma {:induction false} InsertSorted<T>(x: T, s: seq<T>, key: T -> (int, int))
    requires SortedBy(s, key)
    ensures SortedBy(Insert(x, s, key), key)
    decreases |s|
  {
    if s == [] {
    } else if KeyLe(key(x), key(s[0])) {
      TailSorted(s, key);
      forall i | 0 <= i < |s| ensures KeyLe(key(x), key(s[i])) {
        if i > 0 { KeyLeTrans(key(x), key(s[0]), key(s[i])); }
      }
      ConsSorted(x, s, key);
    } else {
      TailSorted(s, key);
      var t := s[1..];
      InsertSorted(x, t, key);
      InsertAbove(x, t, key, key(s[0]));
      ConsSorted(s[0], Insert(x, t, key), key);
    }
  }

  lemma {:induction false} InsertPerm<T>(x: T, s: seq<T>, key: T -> (int, int))
    ensures multiset(Insert(x, s, key)) == multiset(s) + multiset{x}
    decreases |s|
  {
    if s != [] && !KeyLe(key(x), key(s[0])) {
      InsertPerm(x, s[1..], key);
      assert s == [s[0]] + s[1..];
    }
  }

  /** The result is sorted by the key and is a permutation of the input. */
  lemma {:induction false} SortByFacts<T>(s: seq<T>, key: T -> (int, int))
    ensures SortedBy(SortBy(s, key), key)
    ensures multiset(SortBy(s, key)) == multiset(s)
    ensures |SortBy(s, key)| == |s|
    decreases |s|
  {
    if s != [] {
      SortByFacts(s[1..], key);
      InsertSorted(s[0], SortBy(s[1..], key), key);
      InsertPerm(s[0], SortBy(s[1..], key), key);
      assert s == [s[0]] + s[1..];
      assert multiset(s) == multiset{s[0]} + multiset(s[1..]);
      assert |multiset(SortBy(s, key))| == |multiset(s)|;
    }
  }

  /** Inserting into a sorted list places `x` before every element with the same key. */
  lemma {:induction false} WithKeyInsert<T>(x: T, s: seq<T>, key: T -> (int, int), k: (int, int))
    requires SortedBy(s, key)
    ensures WithKey(Insert(x, s, key), key, k) ==
              (if key(x) == k then [x] else []) + WithKey(s, key, k)
    decreases |s|
  {
    if s != [] {
      var t := s[1..];
      if KeyLe(key(x), key(s[0])) {
        assert Insert(x, s, key) == [x] + s;
        assert ([x] + s)[1..] == s;
      } else {
        assert SortedBy(t, key) by {
          forall i, j | 0 <= i < j < |t| ensures KeyLe(key(t[i]), key(t[j])) {
            assert t[i] == s[i + 1] && t[j] == s[j + 1];
          }
        }
        WithKeyInsert(x, t, key, k);
        var r := Insert(x, t, key);
        assert Insert(x, s, key) == [s[0]] + r;
        assert ([s[0]] + r)[1..] == r;
        if key(x) == k {
          assert key(s[0]) != k;
        }
      }
    } else {
      assert [x][1..] == [];
    }
  }

  /**
   * Stability: for every key, the elements with that key appear in the sorted result in
   * the same order as in the input.
   */
  lemma {:induction false} SortByStable<T>(s: seq<T>, key: T -> (int, int), k: (int, int))
    ensures WithKey(SortBy(s, key), key, k) == WithKey(s, key, k)
    decreases |s|
  {
    if s != [] {
      SortByStable(s[1..], key, k);
      SortByFacts(s[1..], key);
      WithKeyInsert(s[0], SortBy(s[1..], key), key, k);
    }
  }
}
