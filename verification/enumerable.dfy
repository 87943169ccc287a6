/**
 * The three LINQ operators the invoice store is written with (`Where`, `Any`,
 * `FirstOrDefault`), as functions on sequences, together with the notion of
 * an order-preserving subsequence that `Where` produces.
 */
module Enumerable {
  import opened Wrappers

  /** `s.Where(p)`: the elements of `s` that satisfy `p`, kept in their order in `s`. */
  function Where<T(==,!new)>(s: seq<T>, p: T -> bool): (r: seq<T>)
    ensures |r| <= |s|
    ensures forall x :: x in r <==> x in s && p(x)
    decreases |s|
  {
    if s == [] then []
    else
      var init, last := s[..|s| - 1], s[|s| - 1];
      assert s == init + [last];
      Where(init, p) + (if p(last) then [last] else [])
  }

  /** `s.Any(p)`: some element of `s` satisfies `p`. */
  function Any<T>(s: seq<T>, p: T -> bool): (r: bool)
    ensures r <==> exists k :: 0 <= k < |s| && p(s[k])
    decreases |s|
  {
    if s == [] then false
    else if p(s[0]) then true
    else
      var r := Any(s[1..], p);
      assert forall k :: 0 <= k < |s[1..]| ==> s[1..][k] == s[k + 1];
      r
  }

  /**
   * `s.FirstOrDefault(p)`: the first element of `s` that satisfies `p`, or
   * `None` (C#'s `null` for a reference type) when there is none.
   */
  function FirstOrDefault<T>(s: seq<T>, p: T -> bool): (r: Option<T>)
    ensures r.None? <==> forall k :: 0 <= k < |s| ==> !p(s[k])
    ensures r.Some? ==> exists k :: 0 <= k < |s| && s[k] == r.value && p(s[k]) && forall j :: 0 <= j < k ==> !p(s[j])
    decreases |s|
  {
    if s == [] then None
    else if p(s[0]) then Some(s[0])
    else
      var r := FirstOrDefault(s[1..], p);
      assert forall k :: 0 <= k < |s[1..]| ==> s[1..][k] == s[k + 1];
      assert r.Some? ==> exists k :: 0 <= k < |s| && s[k] == r.value && p(s[k]) && forall j :: 0 <= j < k ==> !p(s[j]) by {
        if r.Some? {
          var k :| 0 <= k < |s[1..]| && s[1..][k] == r.value && p(s[1..][k]) && forall j :: 0 <= j < k ==> !p(s[1..][j]);
          assert s[k + 1] == r.value;
          assert forall j :: 0 <= j < k + 1 ==> !p(s[j]) by {
            forall j | 0 <= j < k + 1 ensures !p(s[j]) {
              if j > 0 { assert s[j] == s[1..][j - 1]; }
            }
          }
        }
      }
      r
  }

  /**
   * `a` is an order-preserving subsequence of `b`: `a` is obtained from `b`
   * by deleting elements, never by adding or reordering them.
   */
  ghost predicate IsSubsequence<T>(a: seq<T>, b: seq<T>)
    decreases |b|
  {
    a == [] ||
    (b != [] &&
      ((a[|a| - 1] == b[|b| - 1] && IsSubsequence(a[..|a| - 1], b[..|b| - 1])) ||
       IsSubsequence(a, b[..|b| - 1])))
  }

  /** Filtering an extended sequence filters the old part and then the new element. */
  lemma WhereSnoc<T(!new)>(s: seq<T>, x: T, p: T -> bool)
    ensures Where(s + [x], p) == Where(s, p) + (if p(x) then [x] else [])
  {
    assert (s + [x])[..|s|] == s;
  }

  /** `Where` only deletes elements: its result is a subsequence of its input. */
  lemma {:induction false} WhereIsSubsequence<T(!new)>(s: seq<T>, p: T -> bool)
    ensures IsSubsequence(Where(s, p), s)
    decreases |s|
  {
    if s != [] {
      var init := s[..|s| - 1];
      WhereIsSubsequence(init, p);
      var w := Where(s, p);
      if p(s[|s| - 1]) {
        assert w[..|w| - 1] == Where(init, p);
        assert w[|w| - 1] == s[|s| - 1];
      } else {
        assert w == Where(init, p);
      }
    }
  }

  /**
   * `Where` keeps every copy of a matching element and none of the others:
   * the number of occurrences of `x` in the result is its number in `s`
   * when `p(x)` holds, and zero otherwise.
   */
  lemma {:induction false} WhereCount<T(!new)>(s: seq<T>, p: T -> bool, x: T)
    ensures multiset(Where(s, p))[x] == if p(x) then multiset(s)[x] else 0
    decreases |s|
  {
    if s != [] {
      var init, last := s[..|s| - 1], s[|s| - 1];
      assert s == init + [last];
      WhereCount(init, p, x);
      assert multiset(s) == multiset(init) + multiset{last};
      assert Where(s, p) == Where(init, p) + (if p(last) then [last] else []);
    }
  }

  /** Two filters that agree on every element of `s` select the same subsequence. */
  lemma {:induction false} WhereCongruent<T(!new)>(s: seq<T>, p: T -> bool, q: T -> bool)
    requires forall x :: x in s ==> p(x) == q(x)
    ensures Where(s, p) == Where(s, q)
    decreases |s|
  {
    if s != [] {
      var init := s[..|s| - 1];
      assert s == init + [s[|s| - 1]];
      WhereCongruent(init, p, q);
    }
  }

  /**
   * Chaining `.Where(p).Where(q)` is one `Where` with the conjunction: a
   * chain of filters is their AND.
   */
  lemma {:induction false} WhereWhere<T(!new)>(s: seq<T>, p: T -> bool, q: T -> bool, pq: T -> bool)
    requires forall x :: x in s ==> pq(x) == (p(x) && q(x))
    ensures Where(Where(s, p), q) == Where(s, pq)
    decreases |s|
  {
    if s != [] {
      var init, last := s[..|s| - 1], s[|s| - 1];
      assert s == init + [last];
      WhereWhere(init, p, q, pq);
      assert pq(last) == (p(last) && q(last)) by { assert last in s; }
      var w := Where(init, p);
      assert Where(s, p) == w + (if p(last) then [last] else []);
      assert Where(s, pq) == Where(init, pq) + (if pq(last) then [last] else []);
      if p(last) {
        WhereSnoc(w, last, q);
      } else {
        assert Where(s, p) == w;
        assert Where(s, pq) == Where(init, pq);
      }
    }
  }
}
