/** `Array.prototype.filter` followed by `map`, with the positions of the elements it
    keeps; the listing and the dashboard filter their documents this way. */
module Sequences {

  function FilterMap<T, U>(xs: seq<T>, keep: T -> bool, f: T -> U): (r: seq<U>)
    ensures |r| <= |xs|
  {
    if xs == [] then []
    else (if keep(xs[0]) then [f(xs[0])] else []) + FilterMap(xs[1..], keep, f)
  }

  /** The positions, counted from `offset`, of the elements `keep` accepts. */
  function KeptPositions<T>(xs: seq<T>, keep: T -> bool, offset: nat): (idx: seq<nat>)
    ensures forall k :: 0 <= k < |idx| ==> offset <= idx[k] < offset + |xs|
  {
    if xs == [] then []
    else (if keep(xs[0]) then [offset] else []) + KeptPositions(xs[1..], keep, offset + 1)
  }

  lemma {:induction false} KeptPositionsList<T, U>(xs: seq<T>, keep: T -> bool, f: T -> U, offset: nat)
    ensures |KeptPositions(xs, keep, offset)| == |FilterMap(xs, keep, f)|
    ensures forall k :: 0 <= k < |KeptPositions(xs, keep, offset)| ==>
      FilterMap(xs, keep, f)[k] == f(xs[KeptPositions(xs, keep, offset)[k] - offset])
  {
    if xs != [] {
      KeptPositionsList(xs[1..], keep, f, offset + 1);
      var idx, r := KeptPositions(xs, keep, offset), FilterMap(xs, keep, f);
      var idx', r' := KeptPositions(xs[1..], keep, offset + 1), FilterMap(xs[1..], keep, f);
      var n := if keep(xs[0]) then 1 else 0;
      assert idx == (if keep(xs[0]) then [offset] else []) + idx';
      assert r == (if keep(xs[0]) then [f(xs[0])] else []) + r';
      forall k | 0 <= k < |idx| ensures r[k] == f(xs[idx[k] - offset]) {
        if k >= n {
          assert idx[k] == idx'[k - n] && r[k] == r'[k - n];
          assert xs[1..][idx'[k - n] - (offset + 1)] == xs[idx[k] - offset];
        }
      }
    }
  }

  lemma {:induction false} KeptPositionsIncreasing<T>(xs: seq<T>, keep: T -> bool, offset: nat)
    ensures forall k, l :: 0 <= k < l < |KeptPositions(xs, keep, offset)| ==>
      KeptPositions(xs, keep, offset)[k] < KeptPositions(xs, keep, offset)[l]
  {
    if xs != [] {
      KeptPositionsIncreasing(xs[1..], keep, offset + 1);
      var idx := KeptPositions(xs, keep, offset);
      var idx' := KeptPositions(xs[1..], keep, offset + 1);
      var n := if keep(xs[0]) then 1 else 0;
      assert idx == (if keep(xs[0]) then [offset] else []) + idx';
      forall k, l | 0 <= k < l < |idx| ensures idx[k] < idx[l] {
        assert idx[l] == idx'[l - n];
        if k >= n {
          assert idx[k] == idx'[k - n];
        }
      }
    }
  }

  lemma {:induction false} KeptPositionsExact<T>(xs: seq<T>, keep: T -> bool, offset: nat)
    ensures forall i :: 0 <= i < |xs| ==> (offset + i in KeptPositions(xs, keep, offset) <==> keep(xs[i]))
  {
    if xs != [] {
      KeptPositionsExact(xs[1..], keep, offset + 1);
      var idx := KeptPositions(xs, keep, offset);
      var idx' := KeptPositions(xs[1..], keep, offset + 1);
      var pre := if keep(xs[0]) then [offset] else [];
      assert idx == pre + idx';
      forall i | 0 <= i < |xs| ensures offset + i in idx <==> keep(xs[i]) {
        if i == 0 {
          assert offset !in idx';
        } else {
          assert xs[1..][i - 1] == xs[i];
          assert offset + i in idx <==> (offset + 1) + (i - 1) in idx';
        }
      }
    }
  }

  /** `xs.filter(keep).map(f)` holds `f` of exactly the kept elements, each once and
      in their original order. */
  lemma FilterMapKeepsOrder<T, U>(xs: seq<T>, keep: T -> bool, f: T -> U) returns (idx: seq<nat>)
    ensures |idx| == |FilterMap(xs, keep, f)|
    ensures forall k :: 0 <= k < |idx| ==> idx[k] < |xs| && FilterMap(xs, keep, f)[k] == f(xs[idx[k]])
    ensures forall k, l :: 0 <= k < l < |idx| ==> idx[k] < idx[l]
    ensures forall i :: 0 <= i < |xs| ==> (i in idx <==> keep(xs[i]))
  {
    idx := KeptPositions(xs, keep, 0);
    KeptPositionsList(xs, keep, f, 0);
    KeptPositionsIncreasing(xs, keep, 0);
    KeptPositionsExact(xs, keep, 0);
  }

  /** Filtering a concatenation filters each part. */
  lemma {:induction false} FilterMapConcat<T, U>(a: seq<T>, b: seq<T>, keep: T -> bool, f: T -> U)
    ensures FilterMap(a + b, keep, f) == FilterMap(a, keep, f) + FilterMap(b, keep, f)
  {
    if a == [] {
      assert a + b == b;
    } else {
      var head := if keep(a[0]) then [f(a[0])] else [];
      assert (a + b)[0] == a[0] && (a + b)[1..] == a[1..] + b;
      assert FilterMap(a + b, keep, f) == head + FilterMap(a[1..] + b, keep, f);
      assert FilterMap(a, keep, f) == head + FilterMap(a[1..], keep, f);
      FilterMapConcat(a[1..], b, keep, f);
    }
  }

  /** A filter that keeps every element and maps each to itself changes nothing. */
  lemma {:induction false} FilterMapKeepsAll<T>(xs: seq<T>, keep: T -> bool, f: T -> T)
    requires forall i :: 0 <= i < |xs| ==> keep(xs[i]) && f(xs[i]) == xs[i]
    ensures FilterMap(xs, keep, f) == xs
  {
    if xs != [] {
      FilterMapKeepsAll(xs[1..], keep, f);
      assert [xs[0]] + xs[1..] == xs;
    }
  }
}
