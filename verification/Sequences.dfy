/** Subsequences. */
module Sequences {
  /** a can be had from b by deleting elements. */
  predicate Subsequence<T(==)>(a: seq<T>, b: seq<T>)
    decreases |b|
  {
    a == [] || (b != [] && (
      (a[|a| - 1] == b[|b| - 1] && Subsequence(a[..|a| - 1], b[..|b| - 1]))
      || Subsequence(a, b[..|b| - 1])))
  }

  lemma Regrouped<T>(a: seq<T>, b: seq<T>, c: seq<T>)
    ensures a + b + c == a + (b + c)
  {
  }

  lemma {:induction false} Whole<T>(a: seq<T>)
    ensures Subsequence(a, a)
  {
    if a != [] {
      Whole(a[..|a| - 1]);
    }
  }

  lemma {:induction false} Longer<T>(a: seq<T>, b: seq<T>, more: seq<T>)
    requires Subsequence(a, b)
    ensures Subsequence(a, b + more)
    decreases |more|
  {
    if more == [] {
      assert b + more == b;
    } else {
      var k := |more| - 1;
      Longer(a, b, more[..k]);
      assert (b + more)[..|b + more| - 1] == b + more[..k];
    }
  }

  lemma {:induction false} Joined<T>(a: seq<T>, b: seq<T>, c: seq<T>, d: seq<T>)
    requires Subsequence(a, b) && Subsequence(c, d)
    ensures Subsequence(a + c, b + d)
    decreases |d|
  {
    if c == [] {
      assert a + c == a;
      Longer(a, b, d);
    } else {
      var j, k := |c| - 1, |d| - 1;
      assert (b + d)[..|b + d| - 1] == b + d[..k];
      if c[j] == d[k] && Subsequence(c[..j], d[..k]) {
        Joined(a, b, c[..j], d[..k]);
        assert (a + c)[..|a + c| - 1] == a + c[..j];
      } else {
        Joined(a, b, c, d[..k]);
      }
    }
  }

  lemma {:induction false} Transitive<T>(a: seq<T>, b: seq<T>, c: seq<T>)
    requires Subsequence(a, b) && Subsequence(b, c)
    ensures Subsequence(a, c)
    decreases |c|
  {
    if a != [] && c != [] {
      var i, j, k := |a| - 1, |b| - 1, |c| - 1;
      if b[j] == c[k] && Subsequence(b[..j], c[..k]) {
        if a[i] == b[j] && Subsequence(a[..i], b[..j]) {
          Transitive(a[..i], b[..j], c[..k]);
        } else {
          Transitive(a, b[..j], c[..k]);
        }
      } else {
        Transitive(a, b, c[..k]);
      }
    }
  }

  lemma Front<T>(a: seq<T>, more: seq<T>, b: seq<T>)
    requires Subsequence(a + more, b)
    ensures Subsequence(a, b)
  {
    Whole(a);
    Longer(a, a, more);
    Transitive(a, a + more, b);
  }
}
