# Full Relish — a Dafny model of the seasonal-produce filters

Full Relish is a small client-side web application that shows the fruits and
vegetables in season for a U.S. state, with dish suggestions. The repository
holds three near-duplicate React components; their only logic is a set of
deterministic list pipelines and a few event handlers. This project models
that logic and proves its properties.

- `FullRelishApp` (components/FullRelishApp.jsx): the detailed variant. The
  dataset maps a region code to optional `fruits` and `vegetables` lists.
  `ProduceList` keeps the in-season items of each list (an item without
  `seasons` is always in season), keeps the first 5 of each, tags them
  `Fruit` / `Vegetable` and puts fruits first. `Filtered` applies the
  category buttons and the case-insensitive search. `OpenDetail` normalises
  the first dish of a clicked card into a detail record. The class `View`
  holds the component state (region, filter, search term, hovered item,
  selected dish) and its handlers.
- `RegionCalendar`: the dataset shape and the `inSeason` filter shared by
  components/FullRelishSeasonalNew.jsx (lines 15-20) and
  components/FullRelishSeasonal.jsx (lines 7-12), which contain the same
  expression `seasonsByRegion[region] || seasonsByRegion['US'] || []`. An
  empty array is truthy in JavaScript, so a present but empty region entry
  hides the `US` entry; the model keeps that.
- `FullRelishSeasonalNew`: the hover dish pick.
- `FullRelishSeasonal`: the guarded `handleDish` and the `regions` list,
  built by a nested loop over every item's `seasonsByRegion` keys.
- Shared helpers: `Options` (absent JavaScript properties), `Sequences`
  (`filter`, `slice(0, n)`, subsequences), `Text` (ASCII `toLowerCase`,
  `includes`), `RandomPick` (`Math.floor(r * len)`).

Inputs that the components read from the environment are parameters: the
dataset, the month (`new Date().getMonth() + 1` in two components,
`getMonth()` without `+ 1` in `FullRelishSeasonal.jsx:6`, so 0-11 there; the model
takes the month as given and does not reconcile the two), and the random
number `r`, with `0 <= r < 1`. Object key order is modelled explicitly:
`seasonsByRegion` is a sequence of (region, months) entries in key order.

The dish pick guards against a missing or empty `dishes` list only in
`FullRelishSeasonal`. In `FullRelishApp` a click on an item without dishes
throws in the handler; a hover on an item with an empty `dishes` list stores
an `undefined` dish, and the overlay then throws when it reads that dish's
title. In `FullRelishSeasonalNew` a hover on an item with an empty `dishes`
list stores an `undefined` dish and renders nothing; an absent list throws.

## Model

| member | source | states |
|---|---|---|
| `FullRelishApp.InSeasonItems` | components/FullRelishApp.jsx:26-27 | the kept items are an order-preserving subsequence of the bucket; an item is kept exactly when its `seasons` is absent or contains the month, and then with all its occurrences |
| `FullRelishApp.RegionOf` | components/FullRelishApp.jsx:25 | a known region gives its dataset entry; an unknown one gives `{}`, whose fruit and vegetable lists are both empty |
| `FullRelishApp.Bucket` | components/FullRelishApp.jsx:26 | an absent `fruits` or `vegetables` list reads as `[]` |
| `FullRelishApp.InSeasonFor` | components/FullRelishApp.jsx:27 | an item without `seasons` is in season in every month; one with an empty `seasons` list in none |
| `FullRelishApp.ProduceList` | components/FullRelishApp.jsx:24-35 | an unknown region gives the empty list; the list has at most 10 entries; every entry is in season |
| `FullRelishApp.TagAll` | components/FullRelishApp.jsx:29 | tagging keeps the length and gives each item, in order, the category |
| `FullRelishApp.Group` | components/FullRelishApp.jsx:26-29 | one category's part holds at most 5 entries, all with that category and in season |
| `FullRelishApp.OfCategoryIsGroup` | components/FullRelishApp.jsx:34 | selecting one category from the list recovers exactly that category's part |
| `FullRelishApp.CategoryIsFirstInSeason` | components/FullRelishApp.jsx:26-33 | the entries with category `c` are exactly the first min(5, n) in-season items of the `c` bucket, in bucket order and tagged `c`, hence at most 5 per category |
| `FullRelishApp.FruitsThenVegetables` | components/FullRelishApp.jsx:34 | the list equals its fruit entries followed by its vegetable entries |
| `FullRelishApp.NoFruitAfterVegetable` | components/FullRelishApp.jsx:34 | every entry after a vegetable is a vegetable |
| `FullRelishApp.GroupMember` | components/FullRelishApp.jsx:29 | an entry of one category's group carries that category and comes from that category's list |
| `FullRelishApp.TagsFollowSource` | components/FullRelishApp.jsx:26-33 | every entry tagged `Fruit` comes from `fruits`, every entry tagged `Vegetable` from `vegetables` |
| `FullRelishApp.InSeasonAmongFirstShown` | components/FullRelishApp.jsx:27-28 | an in-season item among the first 5 of its list is always in the produce list |
| `FullRelishApp.UnseasonedShownEveryMonth` | components/FullRelishApp.jsx:27 | an item without `seasons` among the first 5 of its list is shown in every month |
| `FullRelishApp.Filtered` | components/FullRelishApp.jsx:38-44 | the result is an order-preserving subsequence of the list; an entry is kept, with all its occurrences, exactly when it matches the category filter and its lower-cased name contains the lower-cased term |
| `FullRelishApp.Matches` | components/FullRelishApp.jsx:40-42 | with an empty search term an entry matches exactly when it passes the category filter |
| `FullRelishApp.FilteredAllEmptyIsIdentity` | components/FullRelishApp.jsx:39-42 | filter `All` with an empty search returns the list unchanged |
| `FullRelishApp.SearchIgnoresCase` | components/FullRelishApp.jsx:41 | two search terms with the same lower-case form select the same entries, so a term and its lower-cased form do |
| `FullRelishApp.SearchExample` | components/FullRelishApp.jsx:40-41 | the term `PEA` matches the fruit `Peach` under `All` and `Fruit`, and not under `Vegetable` |
| `FullRelishApp.UnknownRegionShowsNothing` | components/FullRelishApp.jsx:25 | a region missing from the dataset shows nothing under any filter and search |
| `FullRelishApp.CategoryButtonShowsCategory` | components/FullRelishApp.jsx:40 | with a category button and an empty search the grid shows exactly that category's entries, at most 5 |
| `FullRelishApp.OpenDetail` | components/FullRelishApp.jsx:104-114 | the detail is the normalised first dish and names the item; a string dish gives that title with no ingredients and empty instructions; a record dish's absent title, ingredients and instructions become `''`, `[]` and `''`, present ones are kept |
| `FullRelishApp.DetailOf` | components/FullRelishApp.jsx:108-113 | a string dish is its own title with no ingredients and empty instructions; a record dish keeps each present title, ingredients and instructions, and gives `''`, `[]` and `''` for absent ones |
| `FullRelishApp.View.constructor` | components/FullRelishApp.jsx:14-18 | initial state: region `AZ`, filter `All`, empty search, nothing hovered or selected |
| `FullRelishApp.View.Visible` | components/FullRelishApp.jsx:94 | the grid for the current state holds at most 10 in-season entries that match the filter and search, and none for an unknown region |
| `FullRelishApp.View.EditSearch` | components/FullRelishApp.jsx:61 | sets the search term and nothing else |
| `FullRelishApp.View.SelectRegion` | components/FullRelishApp.jsx:67 | sets the region and nothing else |
| `FullRelishApp.View.SelectFilter` | components/FullRelishApp.jsx:80 | sets the category filter and nothing else |
| `FullRelishApp.View.MouseEnter` | components/FullRelishApp.jsx:98-102 | the hover names the item and holds the dish at `floor(r * len)`, an element of its dishes; nothing else changes |
| `FullRelishApp.View.MouseLeave` | components/FullRelishApp.jsx:103 | clears the hover only |
| `FullRelishApp.View.Click` | components/FullRelishApp.jsx:104-114 | selects the detail of the item's first dish; nothing else changes |
| `FullRelishApp.View.Close` | components/FullRelishApp.jsx:149 | clears the selected dish and leaves region, filter, search and hover unchanged |
| `RegionCalendar.KeyList` | components/FullRelishSeasonal.jsx:23 | `Object.keys` lists each entry's region in entry order |
| `RegionCalendar.Lookup` | components/FullRelishSeasonalNew.jsx:17 | a region's entry is found exactly when the region is a key, and the months returned are those of an entry with that key |
| `RegionCalendar.ChosenSeasons` | components/FullRelishSeasonalNew.jsx:17 | the chosen months are those of the region's own entry when present (even if empty), else those of the `US` entry when present, else empty |
| `RegionCalendar.InSeasonAt` | components/FullRelishSeasonalNew.jsx:18 | an item whose region entry is present and empty, or which has neither a region nor a `US` entry, is not in season |
| `RegionCalendar.InSeason` | components/FullRelishSeasonalNew.jsx:15-20 | the result is an order-preserving subsequence of the items; an item is kept, with all its occurrences, exactly when its chosen months contain the month |
| `RegionCalendar.EmptyRegionEntryShadowsUS` | components/FullRelishSeasonalNew.jsx:17 | an item whose region entry is present and empty is never kept, whatever its `US` entry says |
| `RegionCalendar.UncoveredItemNeverInSeason` | components/FullRelishSeasonal.jsx:9-10 | an item with neither a region entry nor a `US` entry is never kept, for any month |
| `RandomPick.PickIndex` | components/FullRelishSeasonalNew.jsx:42 | `floor(r * len)` with `0 <= r < 1` lies in `[0, len)` when `len > 0` and is 0 when `len = 0` |
| `RandomPick.Pick` | components/FullRelishSeasonalNew.jsx:43 | reading the array at the drawn index gives an element of the array exactly when it is non-empty, else `undefined` |
| `FullRelishSeasonalNew.HoverPick` | components/FullRelishSeasonalNew.jsx:41-44 | the hover names the item; its dish is an element of `dishes` when that is non-empty and `undefined` when it is empty |
| `FullRelishSeasonal.HandleDish` | components/FullRelishSeasonal.jsx:14-18 | a dish is suggested exactly when `dishes` is present and non-empty (the condition for the "Dish idea" button), and it is the element at the drawn index |
| `FullRelishSeasonal.OffersDishIdea` | components/FullRelishSeasonal.jsx:44 | the button is shown when `dishes` is present and non-empty |
| `FullRelishSeasonal.AllKeys` | components/FullRelishSeasonal.jsx:22-23 | a key occurs in the scanned key sequence exactly when it is a key of some item's `seasonsByRegion` |
| `FullRelishSeasonal.Dedup` | components/FullRelishSeasonal.jsx:23-25 | marking keys in an object keeps exactly the keys marked, with no duplicates |
| `FullRelishSeasonal.DedupFirstSeenOrder` | components/FullRelishSeasonal.jsx:23-25 | the object's keys follow the order of first occurrence in the scan |
| `FullRelishSeasonal.Regions` | components/FullRelishSeasonal.jsx:20-26 | the loop yields the deduplicated key scan: no duplicates, a string is listed exactly when it is a key of some item, in order of first occurrence |
| `Sequences.Filter` | components/FullRelishApp.jsx:27 | `filter` keeps an order-preserving subsequence: every kept element satisfies the predicate and comes from the input, every satisfying input element is kept, and each with exactly as many copies as the input has |
| `Sequences.Take` | components/FullRelishApp.jsx:28 | `slice(0, n)` is a prefix of the input of length min(n, length) |
| `Text.Lower` | components/FullRelishApp.jsx:41 | `toLowerCase` keeps the length and maps each character, ASCII upper-case letters to lower case and every other character to itself |
| `Text.Contains` | components/FullRelishApp.jsx:41 | `includes`: the term is a prefix of the name or of one of its suffixes |
| `Text.ContainsAt` | components/FullRelishApp.jsx:41 | an occurrence of the term as a block of the name at any index makes `includes` true |
| `Text.ContainsWitness` | components/FullRelishApp.jsx:41 | conversely, whenever `includes` holds the term occurs as a block of the name at some index |
| `Text.LowerIdempotent` | components/FullRelishApp.jsx:41 | lower-casing an already lower-cased string changes nothing |
## Left out

- Rendering (JSX, Tailwind classes, `next/image`, the "no produce" message, the overlay and modal markup) and app/layout.js, which holds only page metadata and the HTML shell.
- The bundled JSON datasets are not part of this model; the dataset is a parameter.
- `new Date()` and `Math.random()`: the month and the random number are parameters.
- `alert` in `handleDish`: `HandleDish` returns the suggested dish instead of showing it.
- React `useMemo` caching and re-rendering: memoised values are plain functions of their inputs.
- The 50-state list: it only fills the region drop-down and is never checked against.
- The displayed hover text in `FullRelishApp.jsx:131` (string dish or its title) is rendering and is not modelled.
- The region selector of both calendar components and the hover state of `FullRelishSeasonalNew`: their updates are the same single assignments as in `FullRelishApp.View`, so the model gives only the value `HoverPick` computes.
- Every calendar item is taken to have `seasonsByRegion`; without it `inSeason` and `regions` throw (FullRelishSeasonalNew.jsx:17, FullRelishSeasonal.jsx:9, 23).
- In `FullRelishApp` a click on an item with an absent or empty `dishes` throws; a hover on such an item throws (absent list) or stores an `undefined` dish that makes the overlay throw when rendered (empty list). In `FullRelishSeasonalNew` a hover on an item with an absent `dishes` throws. These calls are excluded by preconditions rather than modelled.
- JavaScript property lookup also finds inherited properties (`produceData['toString']`); region codes are plain state codes, so the model treats a lookup as a lookup of the object's own keys.
- Region keys within one `seasonsByRegion` are taken to be unique, as in any parsed JSON object; with repeated entries `Lookup` would take the first one, whereas `JSON.parse` keeps the last value.
- `Object.keys` lists integer-like keys first; region codes are never integer-like, so the model keeps insertion order.
- The category filter is one of the three button values; other strings cannot be chosen in the interface.
- Text.Lower: folds ASCII letters only, whereas `toLowerCase` folds all of Unicode.
- RandomPick.PickIndex: computes over exact reals, not IEEE-754 doubles.
