/**
  Order-preserving filtering of a sequence, the way JavaScript's Array.prototype.filter
  builds a new array. Every erase in the whiteboard (relay, remote mirror, local eraser,
  eraser trail) is a Filter with a fixed predicate, so the properties proved here are the
  properties of all of them.
 */
module Seqs {

  /** The elements of `s` for which `keep` holds, in their original order. */
  function Filter<T>(s: seq<T>, keep: T -> bool): (r: seq<T>)
    ensures |r| <= |s|
    ensures forall i :: 0 <= i < |r| ==> r[i] in s && keep(r[i])
    ensures forall i :: 0 <= i < |s| && keep(s[i]) ==> s[i] in r
  {
    if s == [] then []
    else (if keep(s[0]) then [s[0]] else []) + Filter(s[1..], keep)
  }

  /** `r` can be obtained from `s` by deleting elements, without reordering. */
  ghost predicate IsSubsequence<T>(r: seq<T>, s: seq<T>)
    decreases |s|
  {
    r == [] || (s != [] && ((r[0] == s[0] && IsSubsequence(r[1..], s[1..])) || IsSubsequence(r, s[1..])))
  }

  /** Filtering only deletes: what survives keeps its relative order. */
  lemma {:induction false} FilterIsSubsequence<T>(s: seq<T>, keep: T -> bool)
    ensures IsSubsequence(Filter(s, keep), s)
  {
    if s != [] {
      var r := Filter(s, keep);
      var rest := Filter(s[1..], keep);
      FilterIsSubsequence(s[1..], keep);
      if keep(s[0]) {
        assert r == [s[0]] + rest;
        assert r[0] == s[0] && r[1..] == rest;
      } else {
        assert r == rest;
      }
    }
  }

  /** Filtering twice with the same predicate removes nothing further. */
  lemma {:induction false} FilterIdempotent<T>(s: seq<T>, keep: T -> bool)
    ensures Filter(Filter(s, keep), keep) == Filter(s, keep)
  {
    if s != [] {
      var rest := Filter(s[1..], keep);
      FilterIdempotent(s[1..], keep);
      if keep(s[0]) {
        var r := [s[0]] + rest;
        assert Filter(s, keep) == r;
        assert r[0] == s[0] && r[1..] == rest;
        assert Filter(r, keep) == [s[0]] + Filter(rest, keep);
      } else {
        assert Filter(s, keep) == rest;
      }
    }
  }

  /**
    The filtered sequence has the original length exactly when nothing was removed, which
    happens exactly when every element satisfies the predicate.
   */
  lemma {:induction false} FilterKeepsLength<T>(s: seq<T>, keep: T -> bool)
    ensures |Filter(s, keep)| == |s| <==> Filter(s, keep) == s
    ensures |Filter(s, keep)| == |s| <==> forall i :: 0 <= i < |s| ==> keep(s[i])
  {
    if s != [] {
      FilterKeepsLength(s[1..], keep);
      var rest := Filter(s[1..], keep);
      if keep(s[0]) {
        assert Filter(s, keep) == [s[0]] + rest;
        if rest == s[1..] {
          assert s == [s[0]] + s[1..];
        }
        if forall i :: 0 <= i < |s| ==> keep(s[i]) {
          assert forall i :: 0 <= i < |s[1..]| ==> keep(s[1..][i]) by {
            forall i | 0 <= i < |s[1..]| ensures keep(s[1..][i]) { assert s[1..][i] == s[i + 1]; }
          }
        }
        if forall i :: 0 <= i < |s[1..]| ==> keep(s[1..][i]) {
          forall i | 0 <= i < |s| ensures keep(s[i]) {
            if i > 0 { assert s[i] == s[1..][i - 1]; }
          }
        }
      } else {
        assert Filter(s, keep) == rest;
        assert !keep(s[0]);
      }
    }
  }

  /** Filters with two predicates give the same result in either order. */
  lemma {:induction false} FilterCommutes<T>(s: seq<T>, p: T -> bool, q: T -> bool)
    ensures Filter(Filter(s, p), q) == Filter(Filter(s, q), p)
  {
    if s != [] {
      FilterCommutes(s[1..], p, q);
      var rp, rq := Filter(s[1..], p), Filter(s[1..], q);
      var h := s[0];
      FilterHead(s, p);
      FilterHead(s, q);
      var left := Filter(Filter(s, p), q);
      var right := Filter(Filter(s, q), p);
      if p(h) {
        FilterHead([h] + rp, q);
        assert ([h] + rp)[1..] == rp;
        assert left == (if q(h) then [h] else []) + Filter(rp, q);
      } else {
        assert Filter(s, p) == rp;
      }
      if q(h) {
        FilterHead([h] + rq, p);
        assert ([h] + rq)[1..] == rq;
        assert right == (if p(h) then [h] else []) + Filter(rq, p);
      } else {
        assert Filter(s, q) == rq;
      }
    }
  }

  /** One unfolding of Filter at the head of a non-empty sequence. */
  lemma FilterHead<T>(s: seq<T>, keep: T -> bool)
    requires s != []
    ensures Filter(s, keep) == (if keep(s[0]) then [s[0]] else []) + Filter(s[1..], keep)
  {}

  lemma AppendAssociative<T>(a: seq<T>, b: seq<T>, c: seq<T>)
    ensures a + b + c == a + (b + c)
  {}
}
