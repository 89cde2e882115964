/**
 * The client-side ability filter of the builds page
 * (`buildsFilterByAbilities` in BuildsPage.tsx).
 */
module BuildFilter {
  import opened Wrappers
  import opened Picking

  /** An ability identifier; the filter only ever compares abilities for equality. */
  type Ability(==, !new)

  /** A build as the filter sees it: its identifier and the abilities on its three gear pieces. */
  datatype Build = Build(id: string, headgear: seq<Ability>, clothing: seq<Ability>, shoes: seq<Ability>)

  /** The set of abilities found on any of the build's three gear pieces. */
  function AbilitiesInBuild(b: Build): (r: set<Ability>)
    ensures forall a :: a in r <==> a in b.headgear || a in b.clothing || a in b.shoes
  {
    set a | a in b.headgear + b.clothing + b.shoes
  }

  /** Whether every selected ability is present, checked from the first selected one on. */
  function Every(selected: seq<Ability>, present: set<Ability>): (r: bool)
    ensures r <==> forall a :: a in selected ==> a in present
  {
    if selected == [] then true
    else selected[0] in present && Every(selected[1..], present)
  }

  /** The filter's callback: an empty selection lets every build through. */
  function Matches(b: Build, selected: seq<Ability>): (r: bool)
    ensures r <==> forall a :: a in selected ==> a in b.headgear || a in b.clothing || a in b.shoes
  {
    if |selected| == 0 then true
    else Every(selected, AbilitiesInBuild(b))
  }

  /** The fetched builds that pass `Matches`, visited in order. */
  function FilterByAbilities(builds: seq<Build>, selected: seq<Ability>): (r: seq<Build>)
    ensures |r| <= |builds|
    ensures forall b :: b in r ==> b in builds && Matches(b, selected)
    ensures forall b :: b in builds && Matches(b, selected) ==> b in r
  {
    if builds == [] then []
    else (if Matches(builds[0], selected) then [builds[0]] else []) + FilterByAbilities(builds[1..], selected)
  }

  /** The page's filtered list: no query data yields no builds. */
  function BuildsFilterByAbilities(data: Option<seq<Build>>, selected: seq<Ability>): (r: seq<Build>)
    ensures data.None? ==> r == []
    ensures data.Some? ==> |r| <= |data.value|
    ensures data.Some? ==> forall b :: b in r <==> b in data.value && Matches(b, selected)
  {
    match data
    case None => []
    case Some(builds) => FilterByAbilities(builds, selected)
  }

  /** The match verdict of every fetched build, position by position. */
  ghost function MatchMask(builds: seq<Build>, selected: seq<Ability>): seq<bool>
  {
    seq(|builds|, i requires 0 <= i < |builds| => Matches(builds[i], selected))
  }

  /** With nothing selected, the filter returns the fetched builds unchanged. */
  lemma {:induction false} EmptySelectionKeepsAll(builds: seq<Build>)
    ensures FilterByAbilities(builds, []) == builds
  {
    if builds != [] {
      EmptySelectionKeepsAll(builds[1..]);
      assert builds == [builds[0]] + builds[1..];
    }
  }

  /** The same at the page level, and no data gives no builds whatever is selected. */
  lemma PageFilterEdgeCases(builds: seq<Build>, selected: seq<Ability>)
    ensures BuildsFilterByAbilities(Some(builds), []) == builds
    ensures BuildsFilterByAbilities(None, selected) == []
  {
    EmptySelectionKeepsAll(builds);
  }

  /** The filter result is an order-preserving selection of exactly the matching builds. */
  lemma {:induction false} FilterSelects(builds: seq<Build>, selected: seq<Ability>) returns (idx: seq<int>)
    ensures Picks(builds, MatchMask(builds, selected), FilterByAbilities(builds, selected), idx)
  {
    if builds == [] {
      idx := [];
    } else {
      var tail := builds[1..];
      var rest := FilterSelects(tail, selected);
      assert MatchMask(builds, selected) == [Matches(builds[0], selected)] + MatchMask(tail, selected);
      idx := PicksCons(builds[0], Matches(builds[0], selected), tail, MatchMask(tail, selected),
                       FilterByAbilities(tail, selected), rest);
      assert builds == [builds[0]] + tail;
    }
  }

  /** Conversely, any order-preserving selection of exactly the matching builds is the filter result. */
  lemma {:induction false} FilterUnique(builds: seq<Build>, selected: seq<Ability>, r: seq<Build>, idx: seq<int>)
    requires Picks(builds, MatchMask(builds, selected), r, idx)
    ensures r == FilterByAbilities(builds, selected)
  {
    if builds == [] {
      PicksLength(builds, MatchMask(builds, selected), r, idx);
    } else {
      var tail := builds[1..];
      var idx' := PicksTail(builds, MatchMask(builds, selected), r, idx);
      assert MatchMask(builds, selected)[1..] == MatchMask(tail, selected);
      if Matches(builds[0], selected) {
        FilterUnique(tail, selected, r[1..], idx');
        assert r == [r[0]] + r[1..];
      } else {
        FilterUnique(tail, selected, r, idx');
      }
    }
  }

  /** Selecting `s` and then `t` filters the same as selecting `s + t` at once. */
  lemma {:induction false} FilterComposes(builds: seq<Build>, s: seq<Ability>, t: seq<Ability>)
    ensures FilterByAbilities(FilterByAbilities(builds, s), t) == FilterByAbilities(builds, s + t)
  {
    if builds != [] {
      var b := builds[0];
      assert Matches(b, s + t) == (Matches(b, s) && Matches(b, t)) by {
        forall a | a in s + t
          ensures a in s || a in t
        {
        }
      }
      FilterComposes(builds[1..], s, t);
      if Matches(b, s) {
        assert FilterByAbilities(builds, s) == [b] + FilterByAbilities(builds[1..], s);
        assert FilterByAbilities(builds, s)[1..] == FilterByAbilities(builds[1..], s);
      } else {
        assert FilterByAbilities(builds, s) == FilterByAbilities(builds[1..], s);
      }
    }
  }

  /** Only the set of selected abilities matters, not their order or repetition. */
  lemma {:induction false} FilterIgnoresMultiplicity(builds: seq<Build>, s: seq<Ability>, t: seq<Ability>)
    requires forall a :: a in s <==> a in t
    ensures FilterByAbilities(builds, s) == FilterByAbilities(builds, t)
  {
    if builds != [] {
      assert Matches(builds[0], s) == Matches(builds[0], t);
      FilterIgnoresMultiplicity(builds[1..], s, t);
    }
  }

  /** Filtering twice with the same selection is the same as filtering once. */
  lemma FilterIdempotent(builds: seq<Build>, selected: seq<Ability>)
    ensures FilterByAbilities(FilterByAbilities(builds, selected), selected) == FilterByAbilities(builds, selected)
  {
    FilterComposes(builds, selected, selected);
    FilterIgnoresMultiplicity(builds, selected + selected, selected);
  }

  /**
   * Two builds, the first with abilities x and y on its headgear, the second with x on its
   * headgear and z on its clothing; selecting x and z keeps only the second.
   */
  lemma TwoBuildScenario(x: Ability, y: Ability, z: Ability)
    requires x != y && y != z && x != z
    ensures BuildsFilterByAbilities(Some([Build("1", [x, y], [], []), Build("2", [x], [z], [])]), [x, z])
            == [Build("2", [x], [z], [])]
  {
    var b1 := Build("1", [x, y], [], []);
    var b2 := Build("2", [x], [z], []);
    assert !Matches(b1, [x, z]) by {
      assert z in [x, z];
    }
    assert Matches(b2, [x, z]);
    assert [b1, b2][1..] == [b2];
  }
}
