/** Order-preserving selection from sequences, the shape of the store's `find` and `deleteMany`. */
module Seqs {

  /** The elements of `s` that satisfy `p`, in order (what a `find` with that predicate returns). */
  function Filter<T>(p: T -> bool, s: seq<T>): (r: seq<T>)
    ensures |r| <= |s|
    ensures forall x :: x in r ==> x in s && p(x)
  {
    if |s| == 0 then [] else (if p(s[0]) then [s[0]] else []) + Filter(p, s[1..])
  }

  /** The elements of `s` that do not satisfy `p`, in order (what a `deleteMany` leaves). */
  function Reject<T>(p: T -> bool, s: seq<T>): (r: seq<T>)
    ensures |r| <= |s|
    ensures forall x :: x in r ==> x in s && !p(x)
  {
    if |s| == 0 then [] else (if p(s[0]) then [] else [s[0]]) + Reject(p, s[1..])
  }

  lemma {:induction false} FilterMembership<T>(p: T -> bool, s: seq<T>)
    ensures forall x :: x in Filter(p, s) <==> x in s && p(x)
  {
    if |s| > 0 {
      FilterMembership(p, s[1..]);
      assert s == [s[0]] + s[1..];
    }
  }

  lemma {:induction false} RejectMembership<T>(p: T -> bool, s: seq<T>)
    ensures forall x :: x in Reject(p, s) <==> x in s && !p(x)
  {
    if |s| > 0 {
      RejectMembership(p, s[1..]);
      assert s == [s[0]] + s[1..];
    }
  }

  /** Every element is either selected or left: the two parts add up to the whole. */
  lemma {:induction false} FilterRejectSplit<T>(p: T -> bool, s: seq<T>)
    ensures |Filter(p, s)| + |Reject(p, s)| == |s|
  {
    if |s| > 0 {
      FilterRejectSplit(p, s[1..]);
    }
  }

  /** When nothing matches, nothing is selected and everything is left. */
  lemma {:induction false} NothingMatches<T>(p: T -> bool, s: seq<T>)
    requires forall x :: x in s ==> !p(x)
    ensures Filter(p, s) == []
    ensures Reject(p, s) == s
  {
    if |s| > 0 {
      assert s[0] in s;
      assert forall x :: x in s[1..] ==> x in s;
      NothingMatches(p, s[1..]);
      assert s == [s[0]] + s[1..];
    }
  }

  /** Selecting from a sequence with one more element at its end. */
  lemma {:induction false} FilterSnoc<T>(p: T -> bool, s: seq<T>, x: T)
    ensures Filter(p, s + [x]) == Filter(p, s) + (if p(x) then [x] else [])
  {
    if |s| == 0 {
      assert s + [x] == [x];
    } else {
      assert (s + [x])[1..] == s[1..] + [x];
      FilterSnoc(p, s[1..], x);
    }
  }

  predicate Distinct<T(==)>(s: seq<T>) {
    forall i, j :: 0 <= i < j < |s| ==> s[i] != s[j]
  }

  /** `a` is `b` with some elements left out, the rest in their original order. */
  predicate IsSubsequence<T(==)>(a: seq<T>, b: seq<T>)
    decreases |b|
  {
    if |a| == 0 then true
    else if |b| == 0 then false
    else if a[0] == b[0] then IsSubsequence(a[1..], b[1..])
    else IsSubsequence(a, b[1..])
  }

  lemma {:induction false} SubsequenceOfItself<T>(s: seq<T>)
    ensures IsSubsequence(s, s)
    decreases |s|
  {
    if |s| > 0 {
      SubsequenceOfItself(s[1..]);
    }
  }

  lemma {:induction false} FilterIsSubsequence<T>(p: T -> bool, s: seq<T>)
    ensures IsSubsequence(Filter(p, s), s)
  {
    if |s| > 0 {
      FilterIsSubsequence(p, s[1..]);
      if p(s[0]) {
        assert Filter(p, s) == [s[0]] + Filter(p, s[1..]);
      } else {
        assert Filter(p, s) == Filter(p, s[1..]);
        if |Filter(p, s[1..])| > 0 {
          assert Filter(p, s[1..])[0] in Filter(p, s[1..]);
        }
      }
    }
  }

  /** Selecting from a duplicate-free sequence gives a duplicate-free sequence. */
  lemma {:induction false} FilterDistinct<T>(p: T -> bool, s: seq<T>)
    requires Distinct(s)
    ensures Distinct(Filter(p, s))
  {
    if |s| > 0 {
      assert Distinct(s[1..]);
      FilterDistinct(p, s[1..]);
      if p(s[0]) {
        var r := Filter(p, s);
        assert r == [s[0]] + Filter(p, s[1..]);
        forall j | 0 < j < |r| ensures r[0] != r[j] {
          assert r[j] in Filter(p, s[1..]);
          assert r[j] in s[1..];
        }
      }
    }
  }

  /** The set of a sequence's elements. */
  function Elements<T>(s: seq<T>): set<T> {
    set x | x in s
  }

  /** The set of a sequence's elements is no larger than the sequence. */
  lemma {:induction false} ElementsAtMost<T>(s: seq<T>)
    ensures |Elements(s)| <= |s|
  {
    if |s| > 0 {
      ElementsAtMost(s[1..]);
      assert Elements(s) == {s[0]} + Elements(s[1..]);
    }
  }

  /** A duplicate-free sequence has as many elements as its set. */
  lemma {:induction false} DistinctElements<T>(s: seq<T>)
    requires Distinct(s)
    ensures |Elements(s)| == |s|
  {
    if |s| > 0 {
      assert Distinct(s[1..]);
      DistinctElements(s[1..]);
      assert Elements(s) == {s[0]} + Elements(s[1..]);
      assert s[0] !in Elements(s[1..]);
    }
  }
}
