/**
 * The list of abilities picked on the builds page: the picker's click handler
 * appends an ability not yet present, and a click on a chosen ability removes it.
 */
module AbilitySelection {
  import opened Picking
  import opened BuildFilter

  /** JavaScript's `indexOf`: the first position holding `a`, or -1 when there is none. */
  function IndexOf(s: seq<Ability>, a: Ability): (r: int)
    ensures -1 <= r < |s|
    ensures r == -1 <==> a !in s
    ensures r >= 0 ==> s[r] == a && a !in s[..r]
  {
    if s == [] then -1
    else if s[0] == a then 0
    else
      var k := IndexOf(s[1..], a);
      if k == -1 then -1
      else
        assert s[..k + 1] == [s[0]] + s[1..][..k];
        k + 1
  }

  /** The selection after a click on `a` in the picker: unchanged when `IndexOf` finds `a`, else `a` appended. */
  function Added(s: seq<Ability>, a: Ability): (r: seq<Ability>)
    ensures a in r
    ensures forall x :: x in r <==> x in s || x == a
    ensures |s| <= |r| <= |s| + 1 && r[..|s|] == s
    ensures Distinct(s) ==> Distinct(r)
  {
    if IndexOf(s, a) != -1 then s else s + [a]
  }

  /** The selection after a click on the chosen `a`: every element different from `a`, in order. */
  function Without(s: seq<Ability>, a: Ability): (r: seq<Ability>)
    ensures a !in r
    ensures multiset(r) == multiset(s)[a := 0]
    ensures |r| <= |s|
  {
    if s == [] then []
    else
      assert s == [s[0]] + s[1..];
      (if a != s[0] then [s[0]] else []) + Without(s[1..], a)
  }

  /** Which positions of `s` survive the removal of `a`. */
  ghost function KeptMask(s: seq<Ability>, a: Ability): seq<bool>
  {
    seq(|s|, i requires 0 <= i < |s| => a != s[i])
  }

  /** An ability already chosen is not added again; any other is appended at the end. */
  lemma AddedCases(s: seq<Ability>, a: Ability)
    ensures a in s ==> Added(s, a) == s
    ensures a !in s ==> Added(s, a) == s + [a]
  {
  }

  /** Removal keeps every other chosen ability, in its original order. */
  lemma {:induction false} WithoutSelects(s: seq<Ability>, a: Ability) returns (idx: seq<int>)
    ensures Picks(s, KeptMask(s, a), Without(s, a), idx)
  {
    if s == [] {
      idx := [];
    } else {
      var tail := s[1..];
      var rest := WithoutSelects(tail, a);
      assert KeptMask(s, a) == [a != s[0]] + KeptMask(tail, a);
      idx := PicksCons(s[0], a != s[0], tail, KeptMask(tail, a), Without(tail, a), rest);
      assert s == [s[0]] + tail;
    }
  }

  /** Removal keeps the selection free of repetitions. */
  lemma WithoutKeepsDistinct(s: seq<Ability>, a: Ability)
    requires Distinct(s)
    ensures Distinct(Without(s, a))
  {
    var idx := WithoutSelects(s, a);
    PicksDistinct(s, KeptMask(s, a), Without(s, a), idx);
  }

  /** Removing an ability that is not chosen changes nothing. */
  lemma {:induction false} WithoutAbsent(s: seq<Ability>, a: Ability)
    requires a !in s
    ensures Without(s, a) == s
  {
    if s != [] {
      WithoutAbsent(s[1..], a);
      assert s == [s[0]] + s[1..];
    }
  }

  /** Removal distributes over concatenation. */
  lemma {:induction false} WithoutAppend(s: seq<Ability>, t: seq<Ability>, a: Ability)
    ensures Without(s + t, a) == Without(s, a) + Without(t, a)
  {
    if s != [] {
      WithoutAppend(s[1..], t, a);
      assert (s + t)[1..] == s[1..] + t;
    } else {
      assert s + t == t;
    }
  }

  /** Picking a new ability and then removing it restores the selection. */
  lemma AddThenRemove(s: seq<Ability>, a: Ability)
    requires a !in s
    ensures Without(Added(s, a), a) == s
  {
    WithoutAppend(s, [a], a);
    WithoutAbsent(s, a);
    assert Without([a], a) == [];
  }

  /** Removing twice is the same as removing once. */
  lemma RemoveIdempotent(s: seq<Ability>, a: Ability)
    ensures Without(Without(s, a), a) == Without(s, a)
  {
    WithoutAbsent(Without(s, a), a);
  }

  /** Picking one more ability narrows the current filter result by that ability. */
  lemma AddNarrowsFilter(builds: seq<Build>, s: seq<Ability>, a: Ability)
    ensures FilterByAbilities(builds, Added(s, a)) == FilterByAbilities(FilterByAbilities(builds, s), [a])
  {
    FilterComposes(builds, s, [a]);
    FilterIgnoresMultiplicity(builds, Added(s, a), s + [a]);
  }

  /** Removing a chosen ability widens the filter: the old result is the new one narrowed by that ability. */
  lemma RemoveWidensFilter(builds: seq<Build>, s: seq<Ability>, a: Ability)
    requires a in s
    ensures FilterByAbilities(builds, s) == FilterByAbilities(FilterByAbilities(builds, Without(s, a)), [a])
  {
    var w := Without(s, a);
    assert forall x :: x in w <==> x in multiset(w);
    FilterComposes(builds, w, [a]);
    FilterIgnoresMultiplicity(builds, s, w + [a]);
  }
}
