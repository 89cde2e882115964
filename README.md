# Builds page filter and reveal, in Dafny

This project models the client-side logic of the builds listing page of sendou.ink
(`frontend-react/src/components/builds/BuildsPage.tsx`). The page fetches the builds for
one weapon. The user can pick abilities that every shown build must carry. The matching
builds are revealed four at a time through an infinite scroll.

The model has six modules:

- `Wrappers`: an `Option` type for the query result. The query result is either absent
  (no weapon chosen yet, or still loading) or a list of builds.
- `Picking`: what an order-preserving filter means, stated without recursion. The result
  picks, at strictly increasing positions, exactly the elements whose flag is set. It also
  holds small lemmas that are reused by both filters below.
- `BuildFilter`: the abstract `Ability` type and the `Build` record, with the three
  ability lists of its headgear, clothing and shoes. It has the ability filter
  `buildsFilterByAbilities` and its properties:
  - an empty selection keeps every build;
  - no data yields nothing;
  - the result is sound and complete;
  - the result is exactly the order-preserving selection of the matching builds, proved
    in both directions;
  - filters compose, only the set of selected abilities matters, and filtering twice is
    the same as filtering once.
- `AbilitySelection`: the ordered list of chosen abilities.
  - A picker click appends an ability only if `indexOf` does not find it.
  - A click on a chosen ability removes every copy of it and keeps the rest in order.
  - The module proves that the list stays free of repeats, that adding then removing is a
    round trip, and how each click narrows or widens the filter.
- `Pagination`: the visible list (the filtered builds whose index is below `buildsToShow`),
  `loadMore(page)` setting `buildsToShow` to `page * 4`, and `hasMore`.
- `BuildsPage`: the class `BuildsPageState`. Its fields `abilities` and `buildsToShow` are
  replaced by the methods `AddAbility`, `RemoveAbility` and `LoadMore`, as the React state
  setters replace them. Its invariant is that the chosen abilities never repeat.

`hasMore` is modelled exactly as written. It compares `buildsToShow` with the number of
fetched builds, not with the number that pass the filter. The model proves this is safe in
one direction: when `hasMore` is false, every matching build is on screen
(`Pagination.NoMoreMeansAllShown`). It also shows, with a concrete case
(`Pagination.HasMoreCountsUnfilteredBuilds`), that `hasMore` can still be true after every
matching build is shown. The only effect is further `loadMore` calls that reveal nothing.

The selection is an ordered array that never holds a duplicate, not a set. The model keeps
the list and proves that order and repetition do not change the filter
(`BuildFilter.FilterIgnoresMultiplicity`).

## Model

| member | source | states |
|---|---|---|
| `BuildFilter.AbilitiesInBuild` | frontend-react/src/components/builds/BuildsPage.tsx:50-54 | an ability is in the build's ability set iff it occurs on the headgear, the clothing or the shoes |
| `BuildFilter.Every` | frontend-react/src/components/builds/BuildsPage.tsx:55 | `every` holds iff each selected ability is in the given set |
| `BuildFilter.Matches` | frontend-react/src/components/builds/BuildsPage.tsx:49-55 | the filter callback accepts a build iff every selected ability occurs on one of its three gear pieces (the empty-selection shortcut agrees with this) |
| `BuildFilter.FilterByAbilities` | frontend-react/src/components/builds/BuildsPage.tsx:48-56 | the result is no longer than the input; every kept build was fetched and matches; every fetched build that matches is kept |
| `BuildFilter.BuildsFilterByAbilities` | frontend-react/src/components/builds/BuildsPage.tsx:46-56 | no data gives no builds; with data, a build is in the result iff it was fetched and matches the selection |
| `BuildFilter.EmptySelectionKeepsAll` | frontend-react/src/components/builds/BuildsPage.tsx:48-49 | with nothing selected the filter returns the fetched builds unchanged, in the same order |
| `BuildFilter.PageFilterEdgeCases` | frontend-react/src/components/builds/BuildsPage.tsx:46-49 | at page level: empty selection returns the fetched builds, absent data returns nothing whatever is selected |
| `BuildFilter.FilterSelects` | frontend-react/src/components/builds/BuildsPage.tsx:48-56 | the filter result picks, at strictly increasing positions, exactly the fetched builds that match (order preserved, none missed) |
| `BuildFilter.FilterUnique` | frontend-react/src/components/builds/BuildsPage.tsx:48-56 | any order-preserving selection of exactly the matching builds equals the filter result |
| `BuildFilter.FilterComposes` | frontend-react/src/components/builds/BuildsPage.tsx:48-55 | filtering by `s` and then by `t` equals filtering by `s + t` |
| `BuildFilter.FilterIgnoresMultiplicity` | frontend-react/src/components/builds/BuildsPage.tsx:50-55 | two selections with the same abilities, in any order or repetition, filter identically |
| `BuildFilter.FilterIdempotent` | frontend-react/src/components/builds/BuildsPage.tsx:48-55 | filtering twice with the same selection equals filtering once |
| `BuildFilter.TwoBuildScenario` | frontend-react/src/components/builds/BuildsPage.tsx:46-56 | of builds with abilities {x, y} and {x, z}, selecting x and z keeps only the second |
| `AbilitySelection.IndexOf` | frontend-react/src/components/builds/BuildsPage.tsx:85 | `indexOf` is -1 iff the ability is absent; otherwise it is the first position holding it |
| `AbilitySelection.Added` | frontend-react/src/components/builds/BuildsPage.tsx:84-87 | after a picker click the ability is chosen, nothing else is added, the old selection is a prefix, and a repeat-free selection stays repeat-free |
| `AbilitySelection.AddedCases` | frontend-react/src/components/builds/BuildsPage.tsx:84-87 | an already chosen ability leaves the selection unchanged; any other is appended at the end |
| `AbilitySelection.Without` | frontend-react/src/components/builds/BuildsPage.tsx:108-114 | after removal the ability is gone, every other ability keeps its number of occurrences, and the list does not grow |
| `AbilitySelection.WithoutSelects` | frontend-react/src/components/builds/BuildsPage.tsx:110-112 | removal keeps exactly the positions holding another ability, in their original order |
| `AbilitySelection.WithoutKeepsDistinct` | frontend-react/src/components/builds/BuildsPage.tsx:108-114 | removal keeps a repeat-free selection repeat-free |
| `AbilitySelection.WithoutAbsent` | frontend-react/src/components/builds/BuildsPage.tsx:110-112 | removing an ability that is not chosen changes nothing |
| `AbilitySelection.WithoutAppend` | frontend-react/src/components/builds/BuildsPage.tsx:110-112 | removal distributes over concatenation |
| `AbilitySelection.AddThenRemove` | frontend-react/src/components/builds/BuildsPage.tsx:84-114 | picking a new ability and then clicking it away restores the previous selection |
| `AbilitySelection.RemoveIdempotent` | frontend-react/src/components/builds/BuildsPage.tsx:108-114 | removing twice equals removing once |
| `AbilitySelection.AddNarrowsFilter` | frontend-react/src/components/builds/BuildsPage.tsx:84-87 | after picking `a`, the filter result is the previous result narrowed to builds carrying `a` |
| `AbilitySelection.RemoveWidensFilter` | frontend-react/src/components/builds/BuildsPage.tsx:108-114 | after removing a chosen `a`, narrowing the new result to builds carrying `a` gives back the old result |
| `Pagination.VisibleFrom` | frontend-react/src/components/builds/BuildsPage.tsx:131-132 | the index filter starting at position `index` keeps exactly the prefix of elements whose position is below the limit |
| `Pagination.Visible` | frontend-react/src/components/builds/BuildsPage.tsx:131-132 | the shown builds are exactly the first min(buildsToShow, filtered count) filtered builds, in order |
| `Pagination.BuildsForPage` | frontend-react/src/components/builds/BuildsPage.tsx:127 | the count asked for by `loadMore(page)` is a whole number of four-build pages, exactly `page` of them |
| `Pagination.HasMore` | frontend-react/src/components/builds/BuildsPage.tsx:128 | true iff the first `buildsToShow` fetched builds (unfiltered) do not make up the whole fetched list, that is iff `buildsToShow` is below the number of fetched builds |
| `Pagination.NoMoreMeansAllShown` | frontend-react/src/components/builds/BuildsPage.tsx:128 | when `hasMore` (against the unfiltered count) is false, every filtered build is shown |
| `Pagination.HasMoreCountsUnfilteredBuilds` | frontend-react/src/components/builds/BuildsPage.tsx:128 | `hasMore` can be true while every filtered build is already shown, because it counts the fetched builds |
| `Pagination.LoadMoreReveals` | frontend-react/src/components/builds/BuildsPage.tsx:127 | after `loadMore(page)`, min(page * 4, filtered count) builds are shown, and a later page shows a superset prefix |
| `BuildsPage.BuildsPageState.constructor` | frontend-react/src/components/builds/BuildsPage.tsx:30-31 | the page starts with no abilities chosen and four builds to show |
| `BuildsPage.BuildsPageState.AddAbility` | frontend-react/src/components/builds/BuildsPage.tsx:84-87 | the selection becomes `Added(old, a)` (unchanged if chosen, else appended), `buildsToShow` is untouched, no repeats |
| `BuildsPage.BuildsPageState.RemoveAbility` | frontend-react/src/components/builds/BuildsPage.tsx:108-114 | the selection becomes `Without(old, a)`, `buildsToShow` is untouched, no repeats |
| `BuildsPage.BuildsPageState.LoadMore` | frontend-react/src/components/builds/BuildsPage.tsx:127 | `buildsToShow` becomes `page * 4`; the selection is untouched |
| `BuildsPage.BuildsPageState.ShownBuilds` | frontend-react/src/components/builds/BuildsPage.tsx:131-132 | the cards shown are the first `buildsToShow` builds of the current filter result; each matches the chosen abilities |
| `BuildsPage.BuildsPageState.HasMoreBuilds` | frontend-react/src/components/builds/BuildsPage.tsx:128 | when the page's `hasMore` is false, the shown builds are the whole filter result |

## Left out

- The remote query through `useQuery` (BuildsPage.tsx:37-44), its loading state and its error message. These are network I/O. The fetched data is an `Option<seq<Build>>` input.
- The weapon selector and the weapon state (BuildsPage.tsx:29, 72-77). Choosing a weapon only changes which data the query returns. The model takes that data as an input. As in the source, the model does not reset the chosen abilities or `buildsToShow` when the weapon changes.
- The ability point view preference stored in localStorage (BuildsPage.tsx:32-34, 64-70), the page title, breakpoints, theme colour and `window.scrollTo`. These are browser and rendering plumbing.
- The internals of the infinite-scroll component: when it calls `loadMore`, and which page numbers it passes (it starts at `pageStart={1}`). `LoadMore` accepts any page number.
- The render guard `buildsFilterByAbilities.length > 0 && data` (BuildsPage.tsx:123). Only the list it guards is modelled. With no matching build that list is empty anyway.
- The closed list of game abilities and their display order (`abilitiesGameOrder`). `Ability` is an abstract type with equality, because the filter only compares abilities.
- Build fields the filter never reads (weapon, title, description, modes, timestamps) are not part of `Build`.
- JavaScript number semantics for `page * 4`. Page numbers and counts are unbounded naturals; no realistic page number comes near the float precision limit.
- app/components/BuildCard.tsx is not part of this model: it renders one build (i18n, images, date formatting) and has no state logic.
- react-ui/src/graphql/mutations/updateBuild.js is not part of this model: it is a declarative GraphQL mutation document sent to a remote API.
