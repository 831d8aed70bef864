/** `Array.prototype.filter` on a sequence, and what it guarantees: the
    result keeps exactly the elements that pass the test, in their original
    order, each as often as it occurs in the input. */
module Selection {

  /** `s.filter(p)`: the elements of s that satisfy p, front to back. */
  function Select<T>(s: seq<T>, p: T -> bool): (r: seq<T>)
    ensures |r| <= |s|
    ensures forall k :: 0 <= k < |r| ==> r[k] in s && p(r[k])
    ensures forall j :: 0 <= j < |s| && p(s[j]) ==> s[j] in r
  {
    if s == [] then [] else (if p(s[0]) then [s[0]] else []) + Select(s[1..], p)
  }

  /** The positions, from `from` onwards, of the elements of s that satisfy p,
      in increasing order. */
  ghost function KeptIndices<T>(s: seq<T>, p: T -> bool, from: nat): (idx: seq<nat>)
    requires from <= |s|
    ensures forall k :: 0 <= k < |idx| ==> from <= idx[k] < |s| && p(s[idx[k]])
    ensures forall k, l :: 0 <= k < l < |idx| ==> idx[k] < idx[l]
    ensures forall j :: from <= j < |s| && p(s[j]) ==> j in idx
    decreases |s| - from
  {
    if from == |s| then [] else (if p(s[from]) then [from] else []) + KeptIndices(s, p, from + 1)
  }

  /** r is made of the elements of s at the strictly increasing positions idx:
      a subsequence of s, in the order of s, with no element taken twice. */
  ghost predicate IsOrderedSelection<T>(r: seq<T>, s: seq<T>, idx: seq<nat>) {
    && |idx| == |r|
    && (forall k :: 0 <= k < |idx| ==> idx[k] < |s| && r[k] == s[idx[k]])
    && (forall k, l :: 0 <= k < l < |idx| ==> idx[k] < idx[l])
  }

  /** Taking one more element, at a position before all those already taken,
      keeps an ordered selection ordered. */
  lemma ConsOrderedSelection<T>(rest: seq<T>, s: seq<T>, restIdx: seq<nat>, i: nat)
    requires IsOrderedSelection(rest, s, restIdx)
    requires i < |s|
    requires forall k :: 0 <= k < |restIdx| ==> i < restIdx[k]
    ensures IsOrderedSelection([s[i]] + rest, s, [i] + restIdx)
  {
  }

  lemma {:induction false} SelectSuffixAtIndices<T>(s: seq<T>, p: T -> bool, from: nat)
    requires from <= |s|
    ensures IsOrderedSelection(Select(s[from..], p), s, KeptIndices(s, p, from))
    decreases |s| - from
  {
    if from < |s| {
      var rest, restIdx := Select(s[from + 1..], p), KeptIndices(s, p, from + 1);
      SelectSuffixAtIndices(s, p, from + 1);
      assert s[from..][1..] == s[from + 1..];
      if p(s[from]) {
        assert Select(s[from..], p) == [s[from]] + rest;
        assert KeptIndices(s, p, from) == [from] + restIdx;
        ConsOrderedSelection(rest, s, restIdx, from);
      } else {
        assert Select(s[from..], p) == rest;
        assert KeptIndices(s, p, from) == restIdx;
      }
    }
  }

  /** The filtered sequence is the input restricted to exactly the positions
      whose element passes the test, in increasing order. */
  lemma SelectIsOrderedSelection<T>(s: seq<T>, p: T -> bool)
    ensures exists idx ::
      && IsOrderedSelection(Select(s, p), s, idx)
      && forall j :: 0 <= j < |s| ==> (j in idx <==> p(s[j]))
  {
    var idx := KeptIndices(s, p, 0);
    SelectSuffixAtIndices(s, p, 0);
    assert s[0..] == s;
    assert IsOrderedSelection(Select(s, p), s, idx);
  }

  /** Nothing is duplicated or invented: an element that passes occurs in the
      result exactly as often as in the input, any other element not at all. */
  lemma {:induction false} SelectMultiplicity<T>(s: seq<T>, p: T -> bool, x: T)
    ensures multiset(Select(s, p))[x] == if p(x) then multiset(s)[x] else 0
  {
    if s != [] {
      SelectMultiplicity(s[1..], p, x);
      assert s == [s[0]] + s[1..];
    }
  }

  /** Filtering an already filtered sequence with the same test changes nothing. */
  lemma {:induction false} SelectIdempotent<T>(s: seq<T>, p: T -> bool)
    ensures Select(Select(s, p), p) == Select(s, p)
  {
    if s != [] {
      SelectIdempotent(s[1..], p);
      if p(s[0]) {
        var r := Select(s, p);
        assert r == [s[0]] + Select(s[1..], p);
        assert r[1..] == Select(s[1..], p);
        assert Select(r, p) == [s[0]] + Select(r[1..], p);
      } else {
        assert Select(s, p) == Select(s[1..], p);
      }
    }
  }

  /** A test every element passes keeps the whole sequence, in order. */
  lemma {:induction false} SelectAll<T>(s: seq<T>, p: T -> bool)
    requires forall j :: 0 <= j < |s| ==> p(s[j])
    ensures Select(s, p) == s
  {
    if s != [] {
      SelectAll(s[1..], p);
      assert s == [s[0]] + s[1..];
    }
  }

  /** Two tests that agree on every element of s select the same result. */
  lemma {:induction false} SelectCongruent<T>(s: seq<T>, p: T -> bool, q: T -> bool)
    requires forall j :: 0 <= j < |s| ==> p(s[j]) == q(s[j])
    ensures Select(s, p) == Select(s, q)
  {
    if s != [] {
      SelectCongruent(s[1..], p, q);
    }
  }

  /** Filtering two elements keeps each one that passes, in order. */
  lemma SelectPair<T>(x: T, y: T, p: T -> bool)
    ensures Select([x, y], p) == (if p(x) then [x] else []) + (if p(y) then [y] else [])
  {
  }
}
