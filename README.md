# Campus GPS: map filtering and location tracking

A Dafny model of the two pieces of logic in the Campus GPS app:

- **The map screen** (`campus-gps/screens/MapScreen.js`). A place catalog is
  filtered by a category chip (`all` switches the test off) and a search
  box. The search is a case-insensitive substring test on the place's name.
  The screen keeps a viewport region, the user's position, the filtered list
  and a helpdesk-visibility flag. Discrete events change them: the filter
  effect, the location effect, the "My Location" button, marker taps, map
  pan/zoom and the helpdesk button. Markers are the filtered places, minus
  helpdesks while the flag is off. Each marker is coloured by a category
  table with a `#666` fallback.
- **The location hook** (`campus-gps/hooks/useLocation.js`). It holds
  `location`, `error` and `status`. When it mounts, the status becomes
  `loading`. Then a permission request, and after it a one-shot fix, settle
  the status as `success` or `error`. In parallel, a position watch
  overwrites `location` without touching `status` or `error`. Its handle is
  removed on unmount if one was stored.

Modules:

- `Common`: `Option` and `Coords`.
- `Text`: ASCII lower/upper-casing and `includes`.
- `MapFilter`: the pure filter, markers and colours.
- `MapScreen`: class `MapScreenState`, one method per event.
- `LocationHook`: class `LocationTracker`, one method per provider result.
- `SearchExamples`: lemmas about the filter on literal queries ("night",
  "NIGHT", "xyz") over a two-place catalog.
- `Scenarios`: worked event sequences, checked against the event methods'
  contracts alone.

The filter is modelled as the code runs it: a category stage, then a name
stage (`Filtered`). It is proved equal to an independent one-pass definition
(`Select`). It is then proved to be a subsequence of the catalog that holds
exactly the matching places.

`MapScreenState.Valid()` is the screen invariant: the shown list always
equals `Filtered(catalog, selectedCategory, searchQuery)`.

`LocationTracker.Valid()` ties the status to the progress of the one-shot
request and of the watch:

- idle ⇔ not started;
- loading ⇔ permission or fix awaited;
- error ⇔ an error text is present, and that text is non-empty;
- success ⇒ a position is known;
- removed handles are the stored handle.

Every tracker event also ensures `MayFollow(old(status), status)`: the
status only moves idle → loading → success | error.

Behaviour of the code worth noting:

- A marker tap uses 1.5 × the base spans; "My Location" and a single search
  result both use 2 ×.
- Nothing guards results that arrive after unmount. A watch handle that
  resolves after cleanup is stored and never removed, and a late fix still
  sets the status (`Scenarios.ResultsAfterCleanup`).
- The watch starts even when permission is denied. Its readings then still
  set `location`, so "no position on denial" holds only for the one-shot
  path.
- The location effect recentres the map on every new position, not only the
  first.
- Cleanup does not clear the stored handle, so calling it twice would
  remove the handle twice. React calls it once.
- Setting the query or the chip to its current value runs no effect, as
  React skips a re-render when the state is unchanged.
- The filter effect also runs on mount, so a one-place catalog opens
  centred on that place (`MapScreenState.constructor`).

## Model

| member | source | states |
|---|---|---|
| `Text.Lower` | campus-gps/screens/MapScreen.js:60 | `toLowerCase` (ASCII): keeps the length and leaves no upper-case ASCII letter; `LowerOfUpper` and `LowerIdempotent` state its laws |
| `Text.Contains` | campus-gps/screens/MapScreen.js:60 | `includes`: the empty query is contained in every text, and a contained query is no longer than the text; `ContainsIff` specifies it completely |
| `Text.ContainsHasOccurrence` | campus-gps/screens/MapScreen.js:60 | a contained query occurs in the text at some offset |
| `Text.OccurrenceIsContained` | campus-gps/screens/MapScreen.js:60 | a query occurring at some offset is contained |
| `Text.ContainsIff` | campus-gps/screens/MapScreen.js:60 | the recursive `includes` holds iff the query occurs in the text at some offset (both directions) |
| `Text.LowerOfUpper` | campus-gps/screens/MapScreen.js:60 | lower-casing an upper-cased string gives the string's lower-casing |
| `Text.LowerIdempotent` | campus-gps/screens/MapScreen.js:60 | lower-casing twice is lower-casing once |
| `MapFilter.NameMatches` | campus-gps/screens/MapScreen.js:60 | the search test (lower-cased name includes lower-cased query); an empty query matches every name; `CaseInsensitive` and `DescriptionIgnored` state its properties over the filter |
| `MapFilter.Filtered` | campus-gps/screens/MapScreen.js:57-61 | the filter effect's list as the code computes it; never longer than the catalog, and every kept place is a matching catalog place; `FilteredSpec` specifies it completely |
| `MapFilter.Matches` | campus-gps/screens/MapScreen.js:59-60 | the one-pass predicate `(cat == all or category == cat) and (query == "" or name matches)`; with `all` it is the name test alone |
| `MapFilter.Select` | campus-gps/screens/MapScreen.js:57-61 | the one-pass reference filter; never longer than the catalog, every kept place a matching catalog place; `SelectIsSubsequence` and `SelectMembership` specify it completely |
| `MapFilter.ByCategory` | campus-gps/screens/MapScreen.js:59 | the category stage keeps only catalog places of the chosen category and never grows the list |
| `MapFilter.ByName` | campus-gps/screens/MapScreen.js:60 | the search stage keeps only places whose lower-cased name contains the lower-cased query |
| `MapFilter.ByCategoryIsSelect` | campus-gps/screens/MapScreen.js:59 | for a chip other than `all`, the category stage equals the one-pass filter with an empty query |
| `MapFilter.ByNameIsSelect` | campus-gps/screens/MapScreen.js:60 | for a non-empty query, searching the category-filtered list equals the one-pass filter |
| `MapFilter.SelectAllEmpty` | campus-gps/screens/MapScreen.js:58 | with `all` and an empty query the one-pass filter keeps the whole catalog |
| `MapFilter.FilteredIsSelect` | campus-gps/screens/MapScreen.js:57-61 | the two-stage chain equals the one-pass filter `(cat == all or category == cat) and (query == "" or name matches)` |
| `MapFilter.SelectIsSubsequence` | campus-gps/screens/MapScreen.js:57-61 | the one-pass filter's result is a subsequence of the catalog |
| `MapFilter.SelectMembership` | campus-gps/screens/MapScreen.js:57-61 | a place is in the one-pass result iff it is in the catalog and matches |
| `MapFilter.FilteredSpec` | campus-gps/screens/MapScreen.js:57-61 | the shown list is a subsequence of the catalog (catalog order kept) holding exactly the catalog places that pass chip and search |
| `MapFilter.ShowEverything` | campus-gps/screens/MapScreen.js:41-60 | with `all` and an empty query the filter effect's list is the whole catalog, the screen's initial list (the one-pass counterpart is `SelectAllEmpty`) |
| `MapFilter.ByNameUpper` | campus-gps/screens/MapScreen.js:60 | the search stage gives the same list for a query, its upper-cased and its lower-cased form |
| `MapFilter.CaseInsensitive` | campus-gps/screens/MapScreen.js:60 | typing the query in capitals or in small letters shows the same places |
| `MapFilter.UndescribedAll` | campus-gps/screens/MapScreen.js:60 | blanking descriptions keeps length and changes each place only in its description |
| `MapFilter.SelectUndescribed` | campus-gps/screens/MapScreen.js:60 | the one-pass filter commutes with blanking every description |
| `MapFilter.UndescribedAppend` | campus-gps/screens/MapScreen.js:60 | blanking descriptions distributes over concatenation |
| `MapFilter.DescriptionIgnored` | campus-gps/screens/MapScreen.js:60 | only names are searched: blanking every description changes the result only by blanking its descriptions |
| `MapFilter.VisibleMarkers` | campus-gps/screens/MapScreen.js:163-164 | the marker rule: never more markers than filtered places, each a filtered place and no helpdesk while the toggle is off; `VisibleMarkersSpec` specifies it completely |
| `MapFilter.VisibleMarkersSpec` | campus-gps/screens/MapScreen.js:163-164 | markers are a subsequence of the filtered list; toggle on: all of it; toggle off: exactly its non-helpdesk places, their number being the list's length less its helpdesks |
| `MapFilter.MarkerColor` | campus-gps/screens/MapScreen.js:89-101 | a listed category gets its table colour; the colour is `#666` iff the category is not in the table |
| `MapScreen.MapScreenState.constructor` | campus-gps/screens/MapScreen.js:33-72 | mount state: default region at 4× spans, empty query, `all`, whole catalog, no user position, helpdesks hidden; a one-place catalog opens at 2× spans on its place |
| `MapScreen.MapScreenState.RunFilterEffect` | campus-gps/screens/MapScreen.js:57-72 | the list becomes the filter of the catalog; exactly one match centres on it at 2× spans, otherwise the region is unchanged |
| `MapScreen.MapScreenState.SetSearchQuery` | campus-gps/screens/MapScreen.js:57-72 | a new query refilters and recentres on a single match; the same query changes nothing; the invariant is kept |
| `MapScreen.MapScreenState.SelectCategory` | campus-gps/screens/MapScreen.js:57-72 | a new chip refilters and recentres on a single match; the same chip changes nothing; the invariant is kept |
| `MapScreen.MapScreenState.LocationChanged` | campus-gps/screens/MapScreen.js:46-55 | a present position becomes the user position and the region centre, spans kept; an absent one changes nothing |
| `MapScreen.MapScreenState.PressMyLocation` | campus-gps/screens/MapScreen.js:78-87 | with a user position the region is that position at 2× spans; without one it is unchanged |
| `MapScreen.MapScreenState.TapMarker` | campus-gps/screens/MapScreen.js:172-178 | tapping a drawn marker sets the region to its place at 1.5× spans |
| `MapScreen.MapScreenState.RegionChangeComplete` | campus-gps/screens/MapScreen.js:155 | a pan or zoom replaces the stored region |
| `MapScreen.MapScreenState.ToggleHelpdesks` | campus-gps/screens/MapScreen.js:121 | the helpdesk flag flips and nothing else changes, so two toggles restore it |
| `MapScreen.MapScreenState.Markers` | campus-gps/screens/MapScreen.js:163-164 | the drawn places are a subsequence of the filtered list: all of it with the toggle on, its non-helpdesk places (every one of them, counted) with it off |
| `MapScreen.MapScreenState.LocationsFound` | campus-gps/screens/MapScreen.js:195-202 | the count is the number of matching catalog places, whatever the toggle, and at least the number of markers |
| `LocationHook.MayFollow` | campus-gps/hooks/useLocation.js:8-37 | the status machine idle → loading → success or error: a change never returns to idle and never leaves success or error; every tracker event ensures it of the old and new status |
| `LocationHook.ErrorMessage` | campus-gps/hooks/useLocation.js:36 | the exception's message if present and non-empty, `Failed to get location` otherwise; never empty |
| `LocationHook.LocationTracker.constructor` | campus-gps/hooks/useLocation.js:6-11 | no position, no error, status idle, no handle |
| `LocationHook.LocationTracker.Activate` | campus-gps/hooks/useLocation.js:13-15 | status becomes loading before any provider answer; permission and watch requests are pending |
| `LocationHook.LocationTracker.PermissionResolved` | campus-gps/hooks/useLocation.js:16-22 | not `granted`: error `Location permission denied`, status error, no position set; `granted`: the fix is awaited |
| `LocationHook.LocationTracker.FixResolved` | campus-gps/hooks/useLocation.js:23-34 | the fix becomes the position, status success, error cleared |
| `LocationHook.LocationTracker.OneShotFailed` | campus-gps/hooks/useLocation.js:35-38 | a throw in the one-shot path sets the error text and status error, position untouched |
| `LocationHook.LocationTracker.WatchSetupResolved` | campus-gps/hooks/useLocation.js:45-57 | the handle is stored; status and error unchanged |
| `LocationHook.LocationTracker.WatchSetupFailed` | campus-gps/hooks/useLocation.js:58-60 | no handle is stored; status and error unchanged |
| `LocationHook.LocationTracker.WatchUpdate` | campus-gps/hooks/useLocation.js:49-55 | a reading replaces the position only, whatever the permission outcome |
| `LocationHook.LocationTracker.Cleanup` | campus-gps/hooks/useLocation.js:65-70 | `remove` is called once on the stored handle, and not at all when none is stored |
| `LocationHook.LocationTracker.IsLoading` | campus-gps/hooks/useLocation.js:73 | `isLoading` holds exactly while the permission or fix is awaited, and then no error is set |
| `LocationHook.LocationTracker.HasPermission` | campus-gps/hooks/useLocation.js:73 | `hasPermission` implies the one-shot path finished with a known position and no error |
| `SearchExamples.SearchTwo` | campus-gps/screens/MapScreen.js:58-60 | with `all`, searching two places keeps each one whose name matches, in order |
| `SearchExamples.NightingaleQueries` | campus-gps/screens/MapScreen.js:58-60 | "night" and "NIGHT" keep only "Nightingale Block" (not a place whose description mentions night); "xyz" keeps nothing |
| `SearchExamples.NoStartingChar` | campus-gps/screens/MapScreen.js:60 | a text lacking the query's first character does not contain the query |
| `Scenarios.NightingaleSearch` | campus-gps/screens/MapScreen.js:57-72 | the screen narrows to the Nightingale Block and centres on it at 2× spans; "xyz" then leaves the region unchanged |
| `Scenarios.PermissionDenied` | campus-gps/hooks/useLocation.js:17-21 | denial ends in status error, the literal denial text and no position |
| `Scenarios.WatchAfterFix` | campus-gps/hooks/useLocation.js:28-55 | a watch reading after a successful fix becomes the position; status stays success |
| `Scenarios.ResultsAfterCleanup` | campus-gps/hooks/useLocation.js:57-70 | unmounting before the watch setup resolves removes nothing; the late handle is kept and a late fix still sets success |
| `Scenarios.CleanupRemovesOnce` | campus-gps/hooks/useLocation.js:65-70 | unmounting with a stored handle removes exactly that handle once |
| `Scenarios.HelpdeskToggle` | campus-gps/screens/MapScreen.js:121-195 | showing helpdesks draws every filtered place; the count is the same shown or hidden; two toggles restore the flag |

## Left out

- Rendering and styling: the JSX, the `StyleSheet` and the web fallback
  text. The dynamic `react-native-maps` loading is also left out.
- The "You are here" marker and its green pin
  (`campus-gps/screens/MapScreen.js:183-189`) are rendering. The model keeps
  the `userLocation` they read.
- Screen size: `Dimensions` is an input. The longitude base span is
  `0.005 × aspect ratio`, with the aspect ratio passed to the constructor.
  Spans are `real` products of it and are never rounded.
- The expo-location API: permission answers, fixes, watch readings and watch
  setup results are event-method parameters. The request options are not
  modelled (high accuracy, 10 s maximum age, 5 s / 10 m watch thresholds).
- Async interleaving: each provider completion is a separate event.
  `oneShot` and `watch` record which requests are still pending. Any order
  they allow is possible.
- The hook's output reaching the screen: `MapScreenState.LocationChanged`
  takes the hook's `location` as a parameter. The two classes are not
  linked by reference.
- Logging: `console.warn` and `console.error`, including the error effect at
  `campus-gps/screens/MapScreen.js:74-76`, which only logs.
- The catalog and category list (`data/locations`) are not part of this
  model. The catalog is a constructor parameter.
- Text: `Text.Lower` models `toLowerCase` for ASCII letters only. Other
  characters are left as they are; Unicode case mapping is not modelled.
- `Text.LowerOfUpper`, `MapFilter.ByNameUpper` and `MapFilter.CaseInsensitive`
  hold for this ASCII model only. In JavaScript `"ß".toUpperCase()` is
  `"SS"`, so the query `ß` and its upper-cased form can select different
  places.
- `MapFilter.MarkerColor`: a JavaScript object lookup would also find
  inherited keys such as `constructor`. The model treats such a category
  as unmapped and gives it `#666`.
- `LocationHook.LocationTracker.OneShotFailed`: only rejections that carry
  a (possibly missing or empty) `message` are modelled. A rejection with
  `null` or `undefined` makes `err.message` throw inside the `catch`; the
  error escapes and `status` stays `loading`. That path is not modelled.
- `LocationHook.LocationTracker.Cleanup`: the `typeof subscription.remove`
  test is taken as always true. Every stored handle can be removed.
- The text of the "N result(s) for …" banner is not modelled: its
  pluralisation and the rule that it is shown only when a query is typed.
  Its number is `MapScreenState.LocationsFound`.
- HomeScreen, App, the navigator, CustomButton, SearchBar and SearchScreen
  are presentation only.
