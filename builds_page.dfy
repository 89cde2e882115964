/**
 * The view state of the builds page (`BuildsPage` in BuildsPage.tsx): the chosen
 * abilities and how many builds the infinite scroll reveals. Each click or scroll
 * replaces one of the two values, as the React state setters do.
 */
module BuildsPage {
  import opened Wrappers
  import opened Picking
  import opened BuildFilter
  import opened AbilitySelection
  import opened Pagination

  class BuildsPageState {
    var abilities: seq<Ability>
    var buildsToShow: nat

    /** The chosen abilities never repeat. */
    ghost predicate Valid()
      reads this
    {
      Distinct(abilities)
    }

    /** The initial state: nothing chosen, four builds to show. */
    constructor ()
      ensures Valid()
      ensures abilities == [] && buildsToShow == InitialBuildsToShow
    {
      abilities := [];
      buildsToShow := InitialBuildsToShow;
    }

    /** A click on `a` in the ability picker. */
    method AddAbility(a: Ability)
      requires Valid()
      modifies this
      ensures Valid()
      ensures abilities == Added(old(abilities), a)
      ensures buildsToShow == old(buildsToShow)
    {
      if IndexOf(abilities, a) != -1 {
        return;
      }
      abilities := abilities + [a];
    }

    /** A click on the chosen ability `a` in the list of active filters. */
    method RemoveAbility(a: Ability)
      requires Valid()
      modifies this
      ensures Valid()
      ensures abilities == Without(old(abilities), a)
      ensures buildsToShow == old(buildsToShow)
    {
      WithoutKeepsDistinct(abilities, a);
      abilities := Without(abilities, a);
    }

    /** The infinite scroll's `loadMore(page)`. */
    method LoadMore(page: nat)
      requires Valid()
      modifies this
      ensures Valid()
      ensures buildsToShow == BuildsForPage(page)
      ensures abilities == old(abilities)
    {
      buildsToShow := BuildsForPage(page);
    }

    /** The builds rendered as cards for the query result `data`. */
    function ShownBuilds(data: Option<seq<Build>>): (r: seq<Build>)
      reads this
      ensures |r| <= buildsToShow
      ensures forall b :: b in r ==> b in BuildsFilterByAbilities(data, abilities) && Matches(b, abilities)
      ensures r == BuildsFilterByAbilities(data, abilities)[..Min(buildsToShow, |BuildsFilterByAbilities(data, abilities)|)]
    {
      Visible(BuildsFilterByAbilities(data, abilities), buildsToShow)
    }

    /** The scroll's `hasMore` for the fetched builds; once it is false, every matching build is shown. */
    function HasMoreBuilds(fetched: seq<Build>): (r: bool)
      reads this
      ensures !r ==> ShownBuilds(Some(fetched)) == BuildsFilterByAbilities(Some(fetched), abilities)
    {
      HasMore(buildsToShow, fetched)
    }
  }
}
