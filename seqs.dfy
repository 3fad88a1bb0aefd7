/**
 * Regrouping and membership facts about concatenated sequences. The line builders append
 * one line at a time; these lemmas relate the result to the grouped parts their
 * specifications are written in. The left fold describes a loop that visits a sequence
 * in order and updates one state.
 */
module Seqs {

  lemma Assoc<T>(a: seq<T>, b: seq<T>, c: seq<T>)
    ensures a + b + c == a + (b + c)
  {
  }

  /** Appending four parts one by one equals appending their concatenation. */
  lemma Assoc4<T>(xs: seq<T>, a: seq<T>, b: seq<T>, c: seq<T>, d: seq<T>)
    ensures xs + a + b + c + d == xs + (a + b + c + d)
  {
  }

  /** Appending nine parts one by one equals appending their concatenation. */
  lemma Assoc9<T>(xs: seq<T>, a: seq<T>, b: seq<T>, c: seq<T>, d: seq<T>, e: seq<T>, f: seq<T>,
                  g: seq<T>, h: seq<T>, k: seq<T>)
    ensures xs + a + b + c + d + e + f + g + h + k == xs + (a + b + c + d + e + f + g + h + k)
  {
  }

  /** A prefix of a prefix of `all` is a prefix of `all`. */
  lemma PrefixOfPrefix<T>(a: seq<T>, b: seq<T>, all: seq<T>, c: seq<T>)
    requires b == a + c && |b| <= |all| && b == all[..|b|]
    ensures |a| <= |all| && a == all[..|a|]
  {
    assert a == b[..|a|];
  }

  /** Membership in four concatenated parts. */
  lemma InParts<T>(x: T, a: seq<T>, b: seq<T>, c: seq<T>, d: seq<T>)
    ensures x in a + b + c + d <==> x in a || x in b || x in c || x in d
  {
  }

  /** Membership in five concatenated parts, all but one of which are known not to hold `x`. */
  lemma OnlyInOne<T>(x: T, a: seq<T>, b: seq<T>, c: seq<T>, d: seq<T>, e: seq<T>, i: nat)
    requires i < 3
    requires x !in a && x !in e
    requires i != 0 ==> x !in b
    requires i != 1 ==> x !in c
    requires i != 2 ==> x !in d
    ensures x in a + b + c + d + e <==> x in [b, c, d][i]
  {
  }

  /** Visits `xs` in order, updating the state with `f`. */
  function FoldLeft<A, T>(f: (A, T) -> A, acc: A, xs: seq<T>): A
    decreases |xs|
  {
    if xs == [] then acc else f(FoldLeft(f, acc, xs[..|xs| - 1]), xs[|xs| - 1])
  }

  /** Folding over two parts is folding over the second from where the first ended. */
  lemma {:induction false} FoldLeftAppend<A, T>(f: (A, T) -> A, acc: A, a: seq<T>, b: seq<T>)
    ensures FoldLeft(f, acc, a + b) == FoldLeft(f, FoldLeft(f, acc, a), b)
    decreases |b|
  {
    if b == [] {
      assert a + b == a;
    } else {
      var b' := b[..|b| - 1];
      var ab := a + b;
      assert ab[..|ab| - 1] == a + b' && ab[|ab| - 1] == b[|b| - 1];
      FoldLeftAppend(f, acc, a, b');
    }
  }

  /** A property every step keeps holds after the fold. */
  lemma {:induction false} FoldInvariant<A, T>(f: (A, T) -> A, inv: A -> bool, acc: A, xs: seq<T>)
    requires inv(acc)
    requires forall a, x :: inv(a) ==> inv(f(a, x))
    ensures inv(FoldLeft(f, acc, xs))
    decreases |xs|
  {
    if xs != [] {
      FoldInvariant(f, inv, acc, xs[..|xs| - 1]);
    }
  }

  /** A measure that each step raises by at most one rises by at most the number of steps. */
  lemma {:induction false} FoldMeasure<A, T>(f: (A, T) -> A, m: A -> int, acc: A, xs: seq<T>)
    requires forall a, x :: m(a) <= m(f(a, x)) <= m(a) + 1
    ensures m(acc) <= m(FoldLeft(f, acc, xs)) <= m(acc) + |xs|
    decreases |xs|
  {
    if xs != [] {
      FoldMeasure(f, m, acc, xs[..|xs| - 1]);
    }
  }

  /**
   * If visiting an element settles it, and settled elements stay settled, then every
   * visited element is settled at the end.
   */
  lemma {:induction false} FoldSettles<A, T>(f: (A, T) -> A, settled: (A, T) -> bool, acc: A, xs: seq<T>)
    requires forall a, x :: settled(f(a, x), x)
    requires forall a, x, y :: settled(a, y) ==> settled(f(a, x), y)
    ensures forall k :: 0 <= k < |xs| ==> settled(FoldLeft(f, acc, xs), xs[k])
    decreases |xs|
  {
    if xs != [] {
      var init := xs[..|xs| - 1];
      FoldSettles(f, settled, acc, init);
      forall k | 0 <= k < |xs| ensures settled(FoldLeft(f, acc, xs), xs[k]) {
        if k < |init| {
          assert xs[k] == init[k];
        }
      }
    }
  }

  /** A state that no element changes is left as it is. */
  lemma {:induction false} FoldFixed<A, T>(f: (A, T) -> A, acc: A, xs: seq<T>)
    requires forall k :: 0 <= k < |xs| ==> f(acc, xs[k]) == acc
    ensures FoldLeft(f, acc, xs) == acc
    decreases |xs|
  {
    if xs != [] {
      FoldFixed(f, acc, xs[..|xs| - 1]);
      assert f(acc, xs[|xs| - 1]) == acc;
    }
  }
}
