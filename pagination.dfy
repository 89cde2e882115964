/**
 * Incremental reveal of the filtered builds: the infinite-scroll list shows the
 * builds whose position is below `buildsToShow`, which grows by pages of four.
 */
module Pagination {
  import opened BuildFilter

  /** Builds per page of the infinite scroll. */
  const PageSize: nat := 4

  /** The page starts by showing four builds. */
  const InitialBuildsToShow: nat := 4

  function Min(x: int, y: int): int
  {
    if x <= y then x else y
  }

  /** The elements of `s` whose position is below `limit`, where the first element of `s` sits at position `index`. */
  function VisibleFrom(s: seq<Build>, index: nat, limit: nat): (r: seq<Build>)
    ensures r == if limit <= index then [] else s[..Min(limit - index, |s|)]
  {
    if s == [] then []
    else
      assert s[..1] == [s[0]];
      (if index < limit then [s[0]] else []) + VisibleFrom(s[1..], index + 1, limit)
  }

  /** The builds handed to the list: the filtered builds at positions below `buildsToShow`. */
  function Visible(filtered: seq<Build>, buildsToShow: nat): (r: seq<Build>)
    ensures r == filtered[..Min(buildsToShow, |filtered|)]
  {
    VisibleFrom(filtered, 0, buildsToShow)
  }

  /** `loadMore(page)` asks for `page * 4` builds. */
  function BuildsForPage(page: nat): (r: nat)
    ensures r % PageSize == 0 && r / PageSize == page
  {
    page * PageSize
  }

  /**
   * `hasMore`: compared with the number of FETCHED builds, not the number that pass the filter,
   * so it holds exactly while a prefix of `buildsToShow` fetched builds leaves some out.
   */
  function HasMore(buildsToShow: nat, fetched: seq<Build>): (r: bool)
    ensures r <==> Visible(fetched, buildsToShow) != fetched
  {
    buildsToShow < |fetched|
  }

  /** Once the scroll stops asking for more, every build that passes the filter is on screen. */
  lemma NoMoreMeansAllShown(fetched: seq<Build>, selected: seq<Ability>, buildsToShow: nat)
    requires !HasMore(buildsToShow, fetched)
    ensures Visible(FilterByAbilities(fetched, selected), buildsToShow) == FilterByAbilities(fetched, selected)
  {
  }

  /**
   * The scroll can still ask for more when every filtered build is already shown:
   * one of five fetched builds carries `x`, and with `x` selected the first page shows it
   * while `hasMore` still holds.
   */
  lemma HasMoreCountsUnfilteredBuilds(x: Ability)
    ensures var hit := Build("1", [x], [], []);
            var miss := Build("2", [], [], []);
            var fetched := [hit, miss, miss, miss, miss];
            && FilterByAbilities(fetched, [x]) == [hit]
            && Visible(FilterByAbilities(fetched, [x]), InitialBuildsToShow) == [hit]
            && HasMore(InitialBuildsToShow, fetched)
  {
    var hit := Build("1", [x], [], []);
    var miss := Build("2", [], [], []);
    var fetched := [hit, miss, miss, miss, miss];
    assert !Matches(miss, [x]) by {
      assert x in [x];
    }
    assert [miss][1..] == [];
    assert FilterByAbilities([miss], [x]) == [];
    assert [miss, miss][1..] == [miss];
    assert FilterByAbilities([miss, miss], [x]) == [];
    assert [miss, miss, miss][1..] == [miss, miss];
    assert FilterByAbilities([miss, miss, miss], [x]) == [];
    assert [miss, miss, miss, miss][1..] == [miss, miss, miss];
    assert FilterByAbilities([miss, miss, miss, miss], [x]) == [];
    assert fetched[1..] == [miss, miss, miss, miss];
  }

  /** A page request shows `min(page * 4, filtered)` builds, and asking for more never hides a shown build. */
  lemma LoadMoreReveals(filtered: seq<Build>, page: nat, later: nat)
    requires page <= later
    ensures |Visible(filtered, BuildsForPage(page))| == Min(page * PageSize, |filtered|)
    ensures Visible(filtered, BuildsForPage(page)) <= Visible(filtered, BuildsForPage(later))
  {
  }
}
