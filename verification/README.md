# Campus map: POI filter and map-view state

This project models the interactive core of the campus map component of
the campus guide (`src/components/CampusMap.tsx`) in Dafny:

- **The filter engine.** The sidebar lists, and the map draws, the POIs
  (points of interest) that pass four tests:
  - the lower-cased name contains the lower-cased search term;
  - the category selector is "all" or equals the POI's category;
  - if "First-Year Essentials" is on, the POI is essential;
  - if "Accessible Only" is on, the POI is accessible.

  `PoiFilter.Filter` is a recursive function over `seq<POI>`. It is proved
  to:
  - keep order;
  - be sound and complete for that conjunction;
  - be the identity without criteria;
  - be idempotent;
  - be monotone in the flags and the category;
  - commute with appending a POI.
- **The seven seed POIs** (`SeedPois.InitialPois`). A few concrete filter
  outcomes are proved about them: the dining category, both flags on, and
  the search "library".
- **The component's React state.** The state is the class
  `MapView.CampusMap`, with one field per state hook and a field each for:
  - the map instance (`viewport`, `None` until the map is created);
  - the routing-control ref (`hasRoutingControl`);
  - the toasts raised (`notices`).

  Every handler is a method. Its `ensures` gives the complete new state as
  an update of the ghost snapshot `State()`, so everything it does not
  mention is unchanged. Every method preserves the invariant `Valid()`:
  - directions are only on when a destination and a user location are known;
  - the creation dialog is only open with a pending location.

Modules:

| file | module | contents |
|---|---|---|
| options.dfy | `Options` | `Option` |
| places.dfy | `Places` | `POI`, `Category`, `CategoryFilter` (`'all'` or one category), `Coord` |
| text.dfy | `Text` | ASCII `Lower`/`LowerStr`; `Includes` (the left-to-right search behind `includes`), with `OccursAt` as its reference meaning |
| poi_filter.dfy | `PoiFilter` | `Matches`, `Filter`, `IsSubsequence` and the filter lemmas |
| seed_pois.dfy | `SeedPois` | the seed data and concrete filter outcomes |
| campus_map.dfy | `MapView` | `ViewState`, `Shown`, `AddedPoi`, and the class `CampusMap` with its handlers |

Modelling choices:

- Coordinates are pairs of `real`s. No arithmetic is done on them.
- The new POI's id is a timestamp in the component. Here it is a parameter
  of `HandleAddPoi`, and ids are not assumed to be unique.
- The outcome of the geolocation request is a parameter of
  `ResolveGeolocation`. The outcomes are device coordinates, an error
  callback, or no geolocation support.
- Whether the map's mount element exists is a parameter of `MountMap`.
- Toasts are appended to `notices`, with the titles, descriptions and
  "destructive" variant the component uses.
- The three form fields of the creation dialog (name, description,
  category) are grouped into one `PoiForm` value.

## Model

| member | source | states |
|---|---|---|
| Text.Lower | src/components/CampusMap.tsx:175 | the lower-cased character is never an upper-case ASCII letter, and differs from its input only for `A`-`Z`, by exactly 32 |
| Text.LowerStr | src/components/CampusMap.tsx:175 | lower-casing keeps the length, leaves no ASCII capital in the result, and changes a character only when it is a capital `A`-`Z`, to the letter 32 code points above it |
| Text.LowerStrIdempotent | src/components/CampusMap.tsx:175 | lower-casing an already lower-cased string changes nothing |
| Text.IncludesIffOccurs | src/components/CampusMap.tsx:175 | the search behind `includes` succeeds exactly when the needle occurs at some offset of the name (both directions) |
| Text.IncludesEmpty | src/components/CampusMap.tsx:175 | an empty search term occurs in every name |
| Text.NotIncludesMissingChar | src/components/CampusMap.tsx:175 | a name lacking some character of the term does not contain the term |
| Text.LowerStrAvoids | src/components/CampusMap.tsx:175 | a name with neither case of a letter still lacks that letter after lower-casing |
| PoiFilter.Filter | src/components/CampusMap.tsx:174-181 | the filtered list is an order-preserving subsequence of `pois`, and every POI in it meets all four conditions |
| PoiFilter.FilterMembership | src/components/CampusMap.tsx:174-181 | a POI is listed exactly when it is in `pois` and meets all four conditions (sound and complete) |
| PoiFilter.FilterKeepsAllMatching | src/components/CampusMap.tsx:174-181 | when every POI meets the conditions, the filter returns `pois` unchanged |
| PoiFilter.FilterWithoutCriteria | src/components/CampusMap.tsx:175-180 | empty search, category `'all'` and both flags off return `pois` unchanged |
| PoiFilter.SearchIgnoresCase | src/components/CampusMap.tsx:175 | searching for a term and for its lower-cased form match the same POIs |
| PoiFilter.FilterNarrowing | src/components/CampusMap.tsx:176-178 | switching a flag on, or narrowing the category from `'all'`, yields a subsequence of the previous list; every POI then has the flagged property or the chosen category |
| PoiFilter.FilterIdempotent | src/components/CampusMap.tsx:174-181 | filtering the filtered list again with the same criteria changes nothing |
| PoiFilter.FilterAppend | src/components/CampusMap.tsx:174-181 | appending a POI to `pois` appends it to the filtered list exactly when it matches, and leaves the earlier filtered entries as they were |
| SeedPois.InitialPois | src/components/CampusMap.tsx:71-142 | there are seven seed POIs with pairwise distinct ids |
| SeedPois.DiningShowsCafeteria | src/components/CampusMap.tsx:71-142 | with the seed POIs, the dining category alone shows exactly the University Cafeteria |
| SeedPois.EssentialAndAccessible | src/components/CampusMap.tsx:71-142 | with the seed POIs, both flags on show Main Library, Student Center, University Cafeteria, Medical Center and Shuttle Stop, in that order |
| SeedPois.SearchLibrary | src/components/CampusMap.tsx:71-142 | with the seed POIs, searching "library" shows exactly the Main Library |
| MapView.InitialStateShowsAll | src/components/CampusMap.tsx:71-181 | in the initial state the sidebar lists every seed POI, in order |
| MapView.AddedPoiShown | src/components/CampusMap.tsx:404-425 | adding a POI keeps the listed POIs and adds the new POI at the end exactly when it passes the current filters |
| MapView.CampusMap.ShowsDirectionsView | src/components/CampusMap.tsx:428 | the directions view is shown only when directions are on and both the destination and the user location are known; in every valid state, exactly when directions are on |
| MapView.CampusMap.constructor | src/components/CampusMap.tsx:50-172 | the initial state: seed POIs, empty search, `'all'`, flags off, nothing selected, no location, no directions, empty form with category `services`, no map |
| MapView.CampusMap.MountMap | src/components/CampusMap.tsx:183-193 | with a mount element, the map is created at (0.3476, 32.5825), zoom 18; without one, nothing changes |
| MapView.CampusMap.ResolveGeolocation | src/components/CampusMap.tsx:206-264 | reported once, after the map is created and while the location is still unknown; success sets the device's coordinates; error and no support both set the fallback (0.3475, 32.5823); only the error path raises a notice; nothing else changes |
| MapView.CampusMap.SetSearchTerm | src/components/CampusMap.tsx:451 | only the search term changes |
| MapView.CampusMap.SetCategory | src/components/CampusMap.tsx:503 | only the category changes; narrowing from `'all'` makes the listed POIs a subsequence of the previous ones, and all of them have the chosen category |
| MapView.CampusMap.ToggleEssentialsOnly | src/components/CampusMap.tsx:468 | only the flag flips; switching it on yields a subsequence of the previous list with only essential POIs, and switching it off yields a supersequence |
| MapView.CampusMap.ToggleAccessibleOnly | src/components/CampusMap.tsx:477 | only the flag flips; switching it on yields a subsequence of the previous list with only accessible POIs, and switching it off yields a supersequence |
| MapView.CampusMap.TogglePlacingMarker | src/components/CampusMap.tsx:459 | only placement mode flips |
| MapView.CampusMap.HandleMapClick | src/components/CampusMap.tsx:271-296 | on a created map, while placing, a click records its location as the pending location, opens the dialog and ends placement (one click per placement); otherwise nothing changes |
| MapView.CampusMap.SetNewPoiName | src/components/CampusMap.tsx:640 | only the form's name changes |
| MapView.CampusMap.SetNewPoiDescription | src/components/CampusMap.tsx:650 | only the form's description changes |
| MapView.CampusMap.SetNewPoiCategory | src/components/CampusMap.tsx:656 | only the form's category changes |
| MapView.CampusMap.CancelAddPoi | src/components/CampusMap.tsx:668-670 | the pending location is dropped and the dialog closes; nothing else changes |
| MapView.CampusMap.CloseAddDialog | src/components/CampusMap.tsx:626 | only the dialog closes; the pending location and the form stay |
| MapView.CampusMap.HandleAddPoi | src/components/CampusMap.tsx:404-425 | with no pending location or an empty name, nothing changes. Otherwise exactly one POI is appended after the existing ones, built from the form and the pending location with both flags off; the dialog closes; the form resets to `''`/`''`/`services`/no location; nothing else changes. Submitting the open dialog with a name always adds exactly one POI |
| MapView.CampusMap.SelectPoi | src/components/CampusMap.tsx:352-354 | only the selection changes, to the clicked POI |
| MapView.CampusMap.ClearSelection | src/components/CampusMap.tsx:594 | only the selection is cleared |
| MapView.CampusMap.NavigateTo | src/components/CampusMap.tsx:360-371 | before the map exists, nothing changes. Otherwise any routing control is removed (turning directions off if there was one), the map centres on the POI at zoom 19, and the POI is selected |
| MapView.CampusMap.RemoveRoutingControl | src/components/CampusMap.tsx:362-366 | an attached routing control is removed and directions are turned off; with none attached, nothing changes |
| MapView.CampusMap.HandleGetDirections | src/components/CampusMap.tsx:373-386 | without a user location, only an error notice is added. With one, the destination becomes the POI, directions go on and the selection clears. Afterwards the directions view is shown exactly when the location was known |
| MapView.CampusMap.HandleBackFromDirections | src/components/CampusMap.tsx:388-391 | directions go off and the destination is forgotten, so the map view is shown |
| MapView.CampusMap.HandleMyLocationClick | src/components/CampusMap.tsx:393-402 | with a location and a map, the map centres on the user at zoom 18; otherwise only a notice is added |

## Left out

- Leaflet rendering is not modelled (src/components/CampusMap.tsx:183-204, 298-358). This covers:
  - the tile layer;
  - marker icons and popup HTML;
  - the user-location marker;
  - the clear-and-repaint of the marker layer.

  The markers drawn are the same list as the sidebar's, `MapView.Shown`.
- The asynchronous timing of the geolocation request is not modelled. Only its outcome is, through `ResolveGeolocation`.
- Unmounting the map (`map.remove()`) is not modelled.
- The crosshair cursor and the registering and removing of the click listener are not modelled. Their effect is the guard in `HandleMapClick`.
- `Text.Lower` lower-cases ASCII letters only. JavaScript's `toLowerCase` also lower-cases non-ASCII letters, and can change a string's length.
- `viewport` stands for the map instance only. While the directions view is shown, the map's container element is unmounted. The map is not created again on return to the map view. So the map may stay bound to an element that is gone, and the model does not capture this.
- Coordinates are opaque pairs of reals. Floating-point rounding is not modelled.
- Nothing in CampusMap.tsx ever attaches a routing control. `hasRoutingControl` therefore stays false in every state reachable from the constructor, and the teardown in `NavigateTo` is modelled but never taken.
- src/components/DirectionsMap.tsx is not part of this model. It wraps a routing library and a remote routing service.
- src/hooks/use-local-auth.ts, src/pages/Login.tsx and src/pages/Index.tsx are not part of this model. They hold browser-storage plumbing, a login form and a static page.
