/** Order-preserving filtering of sequences (JavaScript's `Array.prototype.filter`),
    shared by deletion by id and by the category view. */
module Lists {

  /** The elements of `s` satisfying `p`, in their original order. */
  function Keep<T(==)>(s: seq<T>, p: T -> bool): (r: seq<T>)
    ensures |r| <= |s|
    ensures forall i :: 0 <= i < |r| ==> r[i] in s && p(r[i])
    ensures forall i :: 0 <= i < |s| && p(s[i]) ==> s[i] in r
  {
    if s == [] then []
    else if p(s[0]) then [s[0]] + Keep(s[1..], p)
    else Keep(s[1..], p)
  }

  /** `r` is obtained from `s` by deleting elements: same elements, same relative order. */
  predicate IsSubsequence<T(==)>(r: seq<T>, s: seq<T>)
    decreases |s|
  {
    r == [] || (s != [] && ((r[0] == s[0] && IsSubsequence(r[1..], s[1..])) || IsSubsequence(r, s[1..])))
  }

  lemma {:induction false} SubsequenceReflexive<T>(s: seq<T>)
    ensures IsSubsequence(s, s)
  {
    if s != [] {
      SubsequenceReflexive(s[1..]);
    }
  }

  /** A subsequence holds each value at most as often as the sequence does. */
  lemma {:induction false} SubsequenceCount<T>(r: seq<T>, s: seq<T>)
    requires IsSubsequence(r, s)
    ensures multiset(r) <= multiset(s)
    decreases |s|
  {
    if r != [] {
      assert s == [s[0]] + s[1..];
      if r[0] == s[0] && IsSubsequence(r[1..], s[1..]) {
        SubsequenceCount(r[1..], s[1..]);
        assert r == [r[0]] + r[1..];
      } else {
        SubsequenceCount(r, s[1..]);
      }
    }
  }

  /** Filtering keeps the relative order of what it keeps. */
  lemma {:induction false} KeepIsSubsequence<T>(s: seq<T>, p: T -> bool)
    ensures IsSubsequence(Keep(s, p), s)
  {
    if s != [] {
      KeepIsSubsequence(s[1..], p);
    }
  }

  /** Filtering keeps every occurrence of a kept value and none of a dropped one. */
  lemma {:induction false} KeepCount<T>(s: seq<T>, p: T -> bool, x: T)
    ensures multiset(Keep(s, p))[x] == if p(x) then multiset(s)[x] else 0
  {
    if s != [] {
      KeepCount(s[1..], p, x);
      assert s == [s[0]] + s[1..];
    }
  }

  /** Filtering changes nothing exactly when every element passes. */
  lemma {:induction false} KeepAll<T>(s: seq<T>, p: T -> bool)
    ensures Keep(s, p) == s <==> forall x :: x in s ==> p(x)
  {
    if s != [] {
      KeepAll(s[1..], p);
      assert s == [s[0]] + s[1..];
    }
  }

  /** Filtering twice by the same test is filtering once. */
  lemma {:induction false} KeepIdempotent<T>(s: seq<T>, p: T -> bool)
    ensures Keep(Keep(s, p), p) == Keep(s, p)
  {
    KeepAll(Keep(s, p), p);
  }

  /** Two filters may be applied in either order. */
  lemma {:induction false} KeepCommute<T>(s: seq<T>, p: T -> bool, q: T -> bool)
    ensures Keep(Keep(s, p), q) == Keep(Keep(s, q), p)
  {
    if s != [] {
      KeepCommute(s[1..], p, q);
      var a, t := s[0], s[1..];
      if p(a) {
        assert Keep(s, p) == [a] + Keep(t, p);
        assert ([a] + Keep(t, p))[1..] == Keep(t, p);
      }
      if q(a) {
        assert Keep(s, q) == [a] + Keep(t, q);
        assert ([a] + Keep(t, q))[1..] == Keep(t, q);
      }
    }
  }

  /** The filtered sequence is the only subsequence of `s` that holds only
      elements passing `p` and every occurrence of each of them. */
  lemma {:induction false} KeepUnique<T>(r: seq<T>, s: seq<T>, p: T -> bool)
    requires IsSubsequence(r, s)
    requires forall x :: x in r ==> p(x)
    requires forall x :: p(x) ==> multiset(r)[x] == multiset(s)[x]
    ensures r == Keep(s, p)
    decreases |s|
  {
    if s != [] {
      var a, t := s[0], s[1..];
      assert s == [a] + t;
      if p(a) {
        if r != [] && r[0] == a && IsSubsequence(r[1..], t) {
          assert r == [a] + r[1..];
          forall x | p(x)
            ensures multiset(r[1..])[x] == multiset(t)[x]
          {
          }
          forall x | x in r[1..]
            ensures p(x)
          {
            assert x in r;
          }
          KeepUnique(r[1..], t, p);
        } else {
          assert IsSubsequence(r, t);
          SubsequenceCount(r, t);
          assert false;
        }
      } else {
        if r != [] {
          assert r[0] in r;
        }
        assert IsSubsequence(r, t);
        forall x | p(x)
          ensures multiset(r)[x] == multiset(t)[x]
        {
        }
        KeepUnique(r, t, p);
      }
    }
  }
}
