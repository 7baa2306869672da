/**
 Swift's `Array.filter` and the facts about it that the catalog queries use:
 the result is a subsequence of the input, it holds exactly the elements
 that pass, each as often as in the input, and filtering again is a no-op.
 */
module Seqs {

  /** `a` can be obtained from `b` by deleting elements (order kept). */
  predicate IsSubsequence<T(==)>(a: seq<T>, b: seq<T>)
    decreases |b|
  {
    |a| == 0
    || (|b| > 0
        && ((a[0] == b[0] && IsSubsequence(a[1..], b[1..])) || IsSubsequence(a, b[1..])))
  }

  /** Every sequence is a subsequence of itself. */
  lemma {:induction false} SubsequenceReflexive<T>(a: seq<T>)
    ensures IsSubsequence(a, a)
    decreases |a|
  {
    if |a| > 0 {
      SubsequenceReflexive(a[1..]);
    }
  }

  /** Deleting elements twice is deleting elements once. */
  lemma {:induction false} SubsequenceTransitive<T>(a: seq<T>, b: seq<T>, c: seq<T>)
    requires IsSubsequence(a, b) && IsSubsequence(b, c)
    ensures IsSubsequence(a, c)
    decreases |c|
  {
    if |a| > 0 {
      if b[0] == c[0] && IsSubsequence(b[1..], c[1..]) {
        if a[0] == b[0] && IsSubsequence(a[1..], b[1..]) {
          SubsequenceTransitive(a[1..], b[1..], c[1..]);
        } else {
          SubsequenceTransitive(a, b[1..], c[1..]);
        }
      } else {
        SubsequenceTransitive(a, b, c[1..]);
      }
    }
  }

  /** A sequence is its part before `i`, its element at `i`, and its part after `i`. */
  lemma SplitAt<T>(s: seq<T>, i: int)
    requires 0 <= i < |s|
    ensures s == s[..i] + ([s[i]] + s[i + 1..])
  {
    assert s[i..] == [s[i]] + s[i + 1..];
    assert s == s[..i] + s[i..];
  }

  /** `s.filter(p)`: the elements of `s` for which `p` holds, in order. */
  function Filter<T(!new)>(s: seq<T>, p: T -> bool): (r: seq<T>)
    ensures |r| <= |s|
    ensures forall i :: 0 <= i < |r| ==> p(r[i])
  {
    if |s| == 0 then []
    else
      var rest := Filter(s[1..], p);
      if p(s[0]) then [s[0]] + rest else rest
  }

  /** The filter's output is a subsequence of its input. */
  lemma {:induction false} FilterIsSubsequence<T(!new)>(s: seq<T>, p: T -> bool)
    ensures IsSubsequence(Filter(s, p), s)
  {
    if |s| > 0 {
      FilterIsSubsequence(s[1..], p);
      var r := Filter(s, p);
      if p(s[0]) {
        assert r[1..] == Filter(s[1..], p);
      }
    }
  }

  /**
   The filter keeps exactly the passing elements, each as many times as it
   occurs in the input.
   */
  lemma {:induction false} FilterCount<T(!new)>(s: seq<T>, p: T -> bool)
    ensures forall x :: x in Filter(s, p) <==> x in s && p(x)
    ensures forall x :: multiset(Filter(s, p))[x] == if p(x) then multiset(s)[x] else 0
  {
    if |s| > 0 {
      FilterCount(s[1..], p);
      assert s == [s[0]] + s[1..];
    }
  }

  /** Strictly increasing positions. */
  predicate Increasing(idx: seq<int>)
  {
    forall j, k :: 0 <= j < k < |idx| ==> idx[j] < idx[k]
  }

  /** The elements of `s` at positions `idx`, in that order. */
  function Pick<T>(s: seq<T>, idx: seq<int>): (r: seq<T>)
    requires forall j :: 0 <= j < |idx| ==> 0 <= idx[j] < |s|
    ensures |r| == |idx|
  {
    seq(|idx|, j requires 0 <= j < |idx| => s[idx[j]])
  }

  /** `idx` lists, in increasing order, exactly the positions of `s` whose elements pass `p`. */
  predicate PassingPositions<T(!new)>(s: seq<T>, p: T -> bool, idx: seq<int>)
  {
    && Increasing(idx)
    && (forall j :: 0 <= j < |idx| ==> 0 <= idx[j] < |s|)
    && (forall i :: 0 <= i < |s| ==> (p(s[i]) <==> i in idx))
  }

  /** At most `n` strictly increasing positions fit below `n`. */
  lemma {:induction false} IncreasingPositionsBound(idx: seq<int>, n: nat)
    requires Increasing(idx)
    requires forall j :: 0 <= j < |idx| ==> 0 <= idx[j] < n
    ensures |idx| <= n
    decreases |idx|
  {
    if |idx| > 0 {
      var last := idx[|idx| - 1];
      var front := idx[..|idx| - 1];
      assert forall j :: 0 <= j < |front| ==> front[j] == idx[j] < last;
      IncreasingPositionsBound(front, last);
      assert last < n;
    }
  }

  /**
   The filter's output, described by positions: if `idx` lists exactly the
   passing positions in increasing order, the filter returns the elements at
   those positions.
   */
  lemma {:induction false} FilterPicksPassing<T(!new)>(s: seq<T>, p: T -> bool, idx: seq<int>)
    requires PassingPositions(s, p, idx)
    ensures Filter(s, p) == Pick(s, idx)
    decreases |s|
  {
    if |s| == 0 {
      IncreasingPositionsBound(idx, |s|);
    } else if p(s[0]) {
      var idx' := PassingPositionsKeptHead(s, p, idx);
      FilterPicksPassing(s[1..], p, idx');
    } else {
      var idx' := PassingPositionsDroppedHead(s, p, idx);
      FilterPicksPassing(s[1..], p, idx');
    }
  }

  /** When the head passes it is position 0, and the other positions shift down by one in the tail. */
  lemma PassingPositionsKeptHead<T(!new)>(s: seq<T>, p: T -> bool, idx: seq<int>) returns (idx': seq<int>)
    requires |s| > 0 && p(s[0])
    requires PassingPositions(s, p, idx)
    ensures PassingPositions(s[1..], p, idx')
    ensures Pick(s, idx) == [s[0]] + Pick(s[1..], idx')
  {
    assert 0 in idx;
    assert idx[0] == 0;
    idx' := seq(|idx| - 1, j requires 0 <= j < |idx| - 1 => idx[j + 1] - 1);
    assert forall j :: 0 <= j < |idx'| ==> 0 <= idx'[j] < |s| - 1 by {
      forall j | 0 <= j < |idx'|
        ensures 0 <= idx'[j] < |s| - 1
      {
        assert idx[0] < idx[j + 1];
      }
    }
    KeptHeadMembers(s, p, idx, idx');
    assert Pick(s, idx) == [s[0]] + Pick(s[1..], idx');
  }

  lemma KeptHeadMembers<T(!new)>(s: seq<T>, p: T -> bool, idx: seq<int>, idx': seq<int>)
    requires |s| > 0 && |idx| > 0 && idx[0] == 0
    requires PassingPositions(s, p, idx)
    requires |idx'| == |idx| - 1
    requires forall j :: 0 <= j < |idx'| ==> idx'[j] == idx[j + 1] - 1
    ensures forall i :: 0 <= i < |s| - 1 ==> (p(s[1..][i]) <==> i in idx')
  {
    var tail := s[1..];
    forall i | 0 <= i < |tail|
      ensures p(tail[i]) <==> i in idx'
    {
      assert tail[i] == s[i + 1];
      if i + 1 in idx {
        var k :| 0 <= k < |idx| && idx[k] == i + 1;
        assert idx'[k - 1] == i;
      }
      if i in idx' {
        var k :| 0 <= k < |idx'| && idx'[k] == i;
        assert idx[k + 1] == i + 1;
      }
    }
  }

  /** When the head fails, every position shifts down by one in the tail. */
  lemma PassingPositionsDroppedHead<T(!new)>(s: seq<T>, p: T -> bool, idx: seq<int>) returns (idx': seq<int>)
    requires |s| > 0 && !p(s[0])
    requires PassingPositions(s, p, idx)
    ensures PassingPositions(s[1..], p, idx')
    ensures Pick(s, idx) == Pick(s[1..], idx')
  {
    var tail := s[1..];
    assert forall j :: 0 <= j < |idx| ==> idx[j] != 0;
    idx' := seq(|idx|, j requires 0 <= j < |idx| => idx[j] - 1);
    forall i | 0 <= i < |tail|
      ensures p(tail[i]) <==> i in idx'
    {
      assert tail[i] == s[i + 1];
      if i + 1 in idx {
        var k :| 0 <= k < |idx| && idx[k] == i + 1;
        assert idx'[k] == i;
      }
      if i in idx' {
        var k :| 0 <= k < |idx'| && idx'[k] == i;
        assert idx[k] == i + 1;
      }
    }
    assert Pick(s, idx) == Pick(tail, idx');
  }

  /** When exactly the positions `lo` to `hi` pass, the filter returns that slice. */
  lemma FilterContiguous<T(!new)>(s: seq<T>, p: T -> bool, lo: int, hi: int)
    requires 0 <= lo <= hi <= |s|
    requires forall i :: 0 <= i < |s| ==> (p(s[i]) <==> lo <= i < hi)
    ensures Filter(s, p) == s[lo..hi]
  {
    var idx := RangePositions(s, p, lo, hi);
    FilterPicksPassing(s, p, idx);
  }

  /** The positions `lo` to `hi`, listed in order, are the passing ones; picking them is the slice. */
  lemma RangePositions<T(!new)>(s: seq<T>, p: T -> bool, lo: int, hi: int) returns (idx: seq<int>)
    requires 0 <= lo <= hi <= |s|
    requires forall i :: 0 <= i < |s| ==> (p(s[i]) <==> lo <= i < hi)
    ensures PassingPositions(s, p, idx)
    ensures Pick(s, idx) == s[lo..hi]
  {
    idx := seq(hi - lo, j requires 0 <= j < hi - lo => lo + j);
    forall i | 0 <= i < |s|
      ensures p(s[i]) <==> i in idx
    {
      if lo <= i < hi { assert idx[i - lo] == i; }
    }
    assert Pick(s, idx) == s[lo..hi];
  }

  /** Filtering a sequence whose every element passes leaves it unchanged. */
  lemma {:induction false} FilterAllPass<T(!new)>(s: seq<T>, p: T -> bool)
    requires forall i :: 0 <= i < |s| ==> p(s[i])
    ensures Filter(s, p) == s
  {
    if |s| > 0 {
      FilterAllPass(s[1..], p);
      assert s == [s[0]] + s[1..];
    }
  }

  /** Applying the same filter to its own output changes nothing. */
  lemma FilterIdempotent<T(!new)>(s: seq<T>, p: T -> bool)
    ensures Filter(Filter(s, p), p) == Filter(s, p)
  {
    var r := Filter(s, p);
    assert forall i :: 0 <= i < |r| ==> r[i] in r;
    FilterAllPass(r, p);
  }

  /** Filtering by `p` and then by `q` is filtering once by their conjunction. */
  lemma {:induction false} FilterConjunction<T(!new)>(s: seq<T>, p: T -> bool, q: T -> bool, pq: T -> bool)
    requires forall x :: pq(x) == (p(x) && q(x))
    ensures Filter(Filter(s, p), q) == Filter(s, pq)
  {
    if |s| > 0 {
      FilterConjunction(s[1..], p, q, pq);
    }
  }

  /** Two predicates that agree on every element of `s` filter it alike. */
  lemma {:induction false} FilterCongruent<T(!new)>(s: seq<T>, p: T -> bool, q: T -> bool)
    requires forall i :: 0 <= i < |s| ==> p(s[i]) == q(s[i])
    ensures Filter(s, p) == Filter(s, q)
  {
    if |s| > 0 {
      FilterCongruent(s[1..], p, q);
    }
  }
}
