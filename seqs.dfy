/** Order-preserving filtering of sequences, the model of JavaScript's
    `Array.prototype.filter` (and of an equality query whose result keeps the
    store's order), with the facts the matcher and the forms rely on. */
module Seqs {

  /** The elements of `s` that satisfy `p`, in their original order. */
  function Filter<T>(s: seq<T>, p: T -> bool): (r: seq<T>)
    ensures |r| <= |s|
    ensures forall i :: 0 <= i < |r| ==> r[i] in s && p(r[i])
    ensures forall i :: 0 <= i < |s| && p(s[i]) ==> s[i] in r
  {
    if s == [] then []
    else if p(s[0]) then [s[0]] + Filter(s[1..], p)
    else Filter(s[1..], p)
  }

  /** `idx` lists, strictly increasing, the positions in `b` at which the
      elements of `a` are found. */
  ghost predicate Embeds<T>(idx: seq<nat>, a: seq<T>, b: seq<T>) {
    && |idx| == |a|
    && (forall i :: 0 <= i < |idx| ==> idx[i] < |b| && a[i] == b[idx[i]])
    && (forall i, j :: 0 <= i < j < |idx| ==> idx[i] < idx[j])
  }

  /** `a` is `b` with some elements dropped and the rest kept in order. */
  ghost predicate SubsequenceOf<T>(a: seq<T>, b: seq<T>) {
    exists idx: seq<nat> :: Embeds(idx, a, b)
  }

  /** Moving every position one place right embeds `a` in `b` with one
      element put in front. */
  lemma ShiftEmbeds<T>(tail: seq<nat>, a: seq<T>, x: T, b: seq<T>) returns (idx: seq<nat>)
    requires Embeds(tail, a, b)
    ensures Embeds(idx, a, [x] + b)
    ensures forall i :: 0 <= i < |idx| ==> 0 < idx[i]
  {
    idx := seq(|tail|, i requires 0 <= i < |tail| => tail[i] + 1);
    forall i | 0 <= i < |idx|
      ensures idx[i] < |[x] + b| && a[i] == ([x] + b)[idx[i]]
    {
      assert ([x] + b)[tail[i] + 1] == b[tail[i]];
    }
  }

  /** Keeping the front element as well: position 0 goes before the
      shifted positions. */
  lemma KeepFirst<T>(shifted: seq<nat>, a: seq<T>, x: T, b: seq<T>) returns (idx: seq<nat>)
    requires Embeds(shifted, a, [x] + b)
    requires forall i :: 0 <= i < |shifted| ==> 0 < shifted[i]
    ensures Embeds(idx, [x] + a, [x] + b)
  {
    idx := [0] + shifted;
    forall i | 0 < i < |idx|
      ensures idx[i] == shifted[i - 1] && ([x] + a)[i] == a[i - 1]
    {
    }
  }

  lemma {:induction false} FilterEmbeds<T>(s: seq<T>, p: T -> bool) returns (idx: seq<nat>)
    ensures Embeds(idx, Filter(s, p), s)
  {
    if s == [] {
      idx := [];
    } else {
      var rest := Filter(s[1..], p);
      var tail := FilterEmbeds(s[1..], p);
      assert s == [s[0]] + s[1..];
      var shifted := ShiftEmbeds(tail, rest, s[0], s[1..]);
      if p(s[0]) {
        idx := KeepFirst(shifted, rest, s[0], s[1..]);
        assert Filter(s, p) == [s[0]] + rest;
      } else {
        idx := shifted;
      }
    }
  }

  /** The result of a filter is an order-preserving subsequence of its input. */
  lemma FilterIsSubsequence<T>(s: seq<T>, p: T -> bool)
    ensures SubsequenceOf(Filter(s, p), s)
  {
    var idx := FilterEmbeds(s, p);
  }

  /** One step of a filter over an element put in front. */
  lemma FilterCons<T>(x: T, s: seq<T>, p: T -> bool)
    ensures Filter([x] + s, p) == (if p(x) then [x] else []) + Filter(s, p)
  {
    assert ([x] + s)[1..] == s;
  }

  /** Filtering with a predicate every element meets changes nothing. */
  lemma {:induction false} FilterAll<T>(s: seq<T>, p: T -> bool)
    requires forall i :: 0 <= i < |s| ==> p(s[i])
    ensures Filter(s, p) == s
  {
    if s != [] {
      FilterAll(s[1..], p);
    }
  }

  /** Two predicates that agree on every element filter alike. */
  lemma {:induction false} FilterExtensional<T>(s: seq<T>, p: T -> bool, q: T -> bool)
    requires forall i :: 0 <= i < |s| ==> p(s[i]) == q(s[i])
    ensures Filter(s, p) == Filter(s, q)
  {
    if s != [] {
      FilterExtensional(s[1..], p, q);
    }
  }

  /** The conjunction of two tests. */
  function Both<T>(p: T -> bool, q: T -> bool): T -> bool {
    x => p(x) && q(x)
  }

  /** Two filters in a row are one filter by the conjunction. */
  lemma {:induction false} FilterFilter<T>(s: seq<T>, p: T -> bool, q: T -> bool)
    ensures Filter(Filter(s, p), q) == Filter(s, Both(p, q))
  {
    if s != [] {
      FilterFilter(s[1..], p, q);
    }
  }

  /** The elements that pass a test and those that fail it together
      account for the whole sequence. */
  lemma {:induction false} FilterPartition<T>(s: seq<T>, p: T -> bool, q: T -> bool)
    requires forall i :: 0 <= i < |s| ==> q(s[i]) == !p(s[i])
    ensures |Filter(s, p)| + |Filter(s, q)| == |s|
  {
    if s != [] {
      FilterPartition(s[1..], p, q);
    }
  }
}
