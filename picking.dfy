/**
 * Order-preserving selection: the meaning of `Array.prototype.filter`, stated
 * without recursion, by the positions it keeps.
 */
module Picking {

  /**
   * `r` lists, in their original order, exactly the elements of `s` at the positions
   * where `keep` holds; `idx` is the strictly increasing list of those positions.
   */
  ghost predicate Picks<T>(s: seq<T>, keep: seq<bool>, r: seq<T>, idx: seq<int>)
  {
    && |keep| == |s|
    && |idx| == |r|
    && (forall k :: 0 <= k < |idx| ==> 0 <= idx[k] < |s| && r[k] == s[idx[k]])
    && (forall k, l :: 0 <= k < l < |idx| ==> idx[k] < idx[l])
    && (forall i :: 0 <= i < |s| ==> (i in idx <==> keep[i]))
  }

  /** Adds `n` to every position of `idx`. */
  lemma Shifted(idx: seq<int>, n: int) returns (s: seq<int>)
    ensures |s| == |idx|
    ensures forall k :: 0 <= k < |s| ==> s[k] == idx[k] + n
    ensures forall i :: i in s <==> i - n in idx
  {
    s := seq(|idx|, k requires 0 <= k < |idx| => idx[k] + n);
    forall i
      ensures i in s <==> i - n in idx
    {
      if i - n in idx {
        var k :| 0 <= k < |idx| && idx[k] == i - n;
        assert s[k] == i;
      }
    }
  }

  /** Strictly increasing positions below `n` number at most `n`. */
  lemma {:induction false} IncreasingWithin(idx: seq<int>, n: nat)
    requires forall k :: 0 <= k < |idx| ==> 0 <= idx[k] < n
    requires forall k, l :: 0 <= k < l < |idx| ==> idx[k] < idx[l]
    ensures |idx| <= n
  {
    if idx != [] {
      var m := |idx| - 1;
      IncreasingWithin(idx[..m], idx[m]);
    }
  }

  /** A selection never has more elements than the sequence it picks from. */
  lemma PicksLength<T>(s: seq<T>, keep: seq<bool>, r: seq<T>, idx: seq<int>)
    requires Picks(s, keep, r, idx)
    ensures |r| <= |s|
  {
    IncreasingWithin(idx, |s|);
  }

  /** Putting one element in front: it is picked when its flag is set, and every later position moves up by one. */
  lemma PicksCons<T>(x: T, b: bool, s: seq<T>, keep: seq<bool>, r: seq<T>, idx: seq<int>) returns (idx': seq<int>)
    requires Picks(s, keep, r, idx)
    ensures Picks([x] + s, [b] + keep, (if b then [x] else []) + r, idx')
  {
    var shifted := Shifted(idx, 1);
    assert 0 !in shifted;
    var xs := [x] + s;
    assert forall i :: 1 <= i < |xs| ==> xs[i] == s[i - 1];
    if b {
      idx' := [0] + shifted;
      var r' := [x] + r;
      assert forall k :: 1 <= k < |idx'| ==> idx'[k] == shifted[k - 1] && r'[k] == r[k - 1];
      assert forall i :: i in idx' <==> i == 0 || i in shifted;
    } else {
      idx' := shifted;
    }
  }

  /** Taking the first element off: the positions of the rest move down by one. */
  lemma PicksTail<T>(s: seq<T>, keep: seq<bool>, r: seq<T>, idx: seq<int>) returns (idx': seq<int>)
    requires |s| > 0 && Picks(s, keep, r, idx)
    ensures keep[0] ==> |r| > 0 && r[0] == s[0] && Picks(s[1..], keep[1..], r[1..], idx')
    ensures !keep[0] ==> Picks(s[1..], keep[1..], r, idx')
  {
    if keep[0] {
      idx' := PicksTailKept(s, keep, r, idx);
    } else {
      idx' := PicksTailDropped(s, keep, r, idx);
    }
  }

  /** The first element was picked: it heads the selection, and the rest of the selection picks from the rest. */
  lemma PicksTailKept<T>(s: seq<T>, keep: seq<bool>, r: seq<T>, idx: seq<int>) returns (idx': seq<int>)
    requires |s| > 0 && Picks(s, keep, r, idx) && keep[0]
    ensures |r| > 0 && r[0] == s[0] && Picks(s[1..], keep[1..], r[1..], idx')
  {
    var tail := s[1..];
    assert forall i :: 0 <= i < |tail| ==> tail[i] == s[i + 1];
    assert 0 in idx;
    assert idx[0] == 0 by {
      var k0 :| 0 <= k0 < |idx| && idx[k0] == 0;
      assert k0 == 0 || idx[0] < idx[k0];
    }
    var later := idx[1..];
    assert forall i :: i in later ==> i in idx;
    assert forall i :: i in idx ==> i == 0 || i in later;
    idx' := Shifted(later, -1);
  }

  /** The first element was not picked: the whole selection picks from the rest. */
  lemma PicksTailDropped<T>(s: seq<T>, keep: seq<bool>, r: seq<T>, idx: seq<int>) returns (idx': seq<int>)
    requires |s| > 0 && Picks(s, keep, r, idx) && !keep[0]
    ensures Picks(s[1..], keep[1..], r, idx')
  {
    var tail := s[1..];
    assert forall i :: 0 <= i < |tail| ==> tail[i] == s[i + 1];
    forall k | 0 <= k < |idx|
      ensures idx[k] >= 1
    {
      assert idx[k] != 0;
    }
    idx' := Shifted(idx, -1);
  }

  /** No element occurs twice. */
  ghost predicate Distinct<T>(s: seq<T>)
  {
    forall i, j :: 0 <= i < j < |s| ==> s[i] != s[j]
  }

  /** Picking from a sequence without repetitions gives a sequence without repetitions. */
  lemma PicksDistinct<T>(s: seq<T>, keep: seq<bool>, r: seq<T>, idx: seq<int>)
    requires Picks(s, keep, r, idx) && Distinct(s)
    ensures Distinct(r)
  {
    forall i, j | 0 <= i < j < |r|
      ensures r[i] != r[j]
    {
      assert idx[i] < idx[j];
    }
  }
}
