/** Sequence operations behind the array methods the application relies on:
    `filter`, `slice(0, n)` and counting with `filter(...).length`. */
module Seqs {

  /** A value that may be absent (`undefined` in the application). */
  datatype Option<+T> = None | Some(value: T) {
    /** `x || d` / `x ?? d` for a present-or-absent value. */
    function GetOr(default: T): T {
      match this
      case Some(v) => v
      case None => default
    }
  }

  /** `Array.prototype.filter`: the elements of `s` that satisfy `p`, in order. */
  function Filter<T>(p: T -> bool, s: seq<T>): (r: seq<T>)
    ensures |r| <= |s|
    ensures forall x :: x in r ==> x in s && p(x)
    ensures forall x :: x in s && p(x) ==> x in r
  {
    if s == [] then []
    else if p(s[0]) then [s[0]] + Filter(p, s[1..])
    else Filter(p, s[1..])
  }

  /** `r` is obtained from `s` by deleting elements, the rest keeping their order. */
  predicate IsSubsequence<T(==)>(r: seq<T>, s: seq<T>)
  {
    r == [] ||
    (s != [] && ((r[0] == s[0] && IsSubsequence(r[1..], s[1..])) || IsSubsequence(r, s[1..])))
  }

  lemma {:induction false} FilterIsSubsequence<T>(p: T -> bool, s: seq<T>)
    ensures IsSubsequence(Filter(p, s), s)
  {
    if s != [] {
      FilterIsSubsequence(p, s[1..]);
      if p(s[0]) {
        assert Filter(p, s)[1..] == Filter(p, s[1..]);
      }
    }
  }

  /** Filtering keeps everything exactly when every element passes. */
  lemma {:induction false} FilterKeepsAll<T>(p: T -> bool, s: seq<T>)
    ensures Filter(p, s) == s <==> forall i :: 0 <= i < |s| ==> p(s[i])
  {
    if s != [] {
      FilterKeepsAll(p, s[1..]);
      if !p(s[0]) {
        assert |Filter(p, s)| <= |s[1..]| < |s|;
      } else if Filter(p, s) == s {
        assert Filter(p, s[1..]) == s[1..];
      }
    }
  }

  /** Filtering twice with the same predicate is filtering once. */
  lemma {:induction false} FilterIdempotent<T>(p: T -> bool, s: seq<T>)
    ensures Filter(p, Filter(p, s)) == Filter(p, s)
  {
    var r := Filter(p, s);
    forall i | 0 <= i < |r| ensures p(r[i]) {
      assert r[i] in r;
    }
    FilterKeepsAll(p, r);
  }

  /** Two filters commute: which one runs first does not matter. */
  lemma {:induction false} FilterCommutes<T>(p: T -> bool, q: T -> bool, s: seq<T>)
    ensures Filter(p, Filter(q, s)) == Filter(q, Filter(p, s))
  {
    if s != [] {
      FilterCommutes(p, q, s[1..]);
    }
  }

  /** Filtering with a predicate and with its negation splits the sequence. */
  lemma {:induction false} FilterSplits<T>(p: T -> bool, s: seq<T>)
    ensures |Filter(p, s)| + |Filter(x => !p(x), s)| == |s|
  {
    if s != [] {
      FilterSplits(p, s[1..]);
    }
  }

  /** A filter that drops an element present in `s` makes the sequence shorter. */
  lemma {:induction false} FilterDropsOne<T>(p: T -> bool, s: seq<T>, k: nat)
    requires k < |s| && !p(s[k])
    ensures |Filter(p, s)| < |s|
  {
    if k == 0 {
      assert Filter(p, s) == Filter(p, s[1..]);
    } else {
      FilterDropsOne(p, s[1..], k - 1);
    }
  }

  /** Filtering a sequence extended by one element. */
  lemma {:induction false} FilterAppend<T>(p: T -> bool, s: seq<T>, x: T)
    ensures Filter(p, s + [x]) == Filter(p, s) + (if p(x) then [x] else [])
  {
    var extra := if p(x) then [x] else [];
    if s == [] {
      assert s + [x] == [x];
    } else {
      var t := s + [x];
      FilterAppend(p, s[1..], x);
      assert t[0] == s[0] && t[1..] == s[1..] + [x];
      if p(s[0]) {
        calc {
          Filter(p, t);
          [s[0]] + Filter(p, s[1..] + [x]);
          [s[0]] + (Filter(p, s[1..]) + extra);
          ([s[0]] + Filter(p, s[1..])) + extra;
          Filter(p, s) + extra;
        }
      } else {
        calc {
          Filter(p, t);
          Filter(p, s[1..] + [x]);
          Filter(p, s[1..]) + extra;
          Filter(p, s) + extra;
        }
      }
    }
  }


  /** `slice(0, n)` / `substring(0, n)`: the first `n` elements, or all of them. */
  function Take<T>(s: seq<T>, n: nat): (r: seq<T>)
    ensures |r| == if n <= |s| then n else |s|
    ensures r <= s
  {
    if n <= |s| then s[..n] else s
  }
}
