# Runway light inventory: a verified model

This project models the core of an airfield light-inventory app.

- **The store.** A Convex table of `lights` documents is read with `list` and `get`. Its `toggle` and `setStatus` mutations flip or set one light's `isOn` and fail with "Light not found" for a missing id. `getStats` reports total, operational, failed and a health percentage.
- **The seeder.** `seedLights` lays out 20 Left/Right pairs along the runway 03/21 centreline. It does so only when the table is empty.
- **The two page rollups.**
  - The dashboard counts the lights, and the ones on, in each zone, and lists the failed lights.
  - The simulation page groups the lights into per-zone arrays.
- **The map editor.** A click either does nothing, issues a quick-add request, or opens the add-light modal. The modal's form passes a label and zone on only when both are filled in.

## Module layout

| file | module | models |
|---|---|---|
| `schema.dfy` | `Schema` | the `lights` document (`convex/schema.ts`) and the `Option` type |
| `decimal.dfy` | `Decimal` | the decimal numeral of a natural number, which is what `${n}` prints for n up to 2^53 (every number the app prints is at most 99999), and reading it back |
| `lights.dfy` | `Lights` | the filters and `getStats` as functions of a snapshot; the table as class `LightTable` |
| `zones.dfy` | `Zones` | filtering by zone and the first-seen list of zone names, shared by both pages |
| `dashboard.dfy` | `Dashboard` | the dashboard's `zones` reduce, `failedLights` and the fully-healthy test |
| `simulation.dfy` | `Simulation` | the simulation page's grouping reduce |
| `seed.dfy` | `Seed` | `seedLights`: its guard, the pair-building loop and the insert loop |
| `add_light_modal.dfy` | `AddLightModal` | the modal's form state and `handleSubmit` |
| `light_map.dfy` | `LightMap` | the map's click handler, `onAdd` and `onClose` |

Each reduce is a method with a loop that mutates a dictionary, as the pages do. Its postcondition ties the result to `Reduce`, a fold that applies the callback to one light at a time. Separate lemmas say what that fold means, for example `Dashboard.ReduceMeaning` and `Dashboard.ReduceTotals`.

The store is a class with these fields:
- a map from id to document;
- the ids in insertion order, which is the order `collect()` returns;
- the next id to hand out.

`toggle` and `setStatus` are specified against `SetIsOn`, a function on snapshots. The lemmas about `SetIsOn` carry the involution, idempotence and count properties.

The schema field `label` is named `labelText` here, because `label` is a reserved word in Dafny.

## Model

| member | source | states |
|---|---|---|
| Schema.LightFields.WithId | convex/schema.ts:5-12 | a stored document carries the given id, and stripping the id gives back exactly the inserted fields |
| Decimal.DecimalString | convex/seed.ts:36 | `${n}` is a non-empty string of digits; it starts with '0' only for 0 |
| Decimal.DecimalRoundTrip | convex/seed.ts:36 | reading the printed numeral back gives the number |
| Decimal.DecimalStringInjective | convex/seed.ts:36 | distinct numbers print differently |
| Decimal.DecimalLength | components/Map.tsx:55 | a number with k+1 digits prints as k+1 characters |
| Lights.InState | convex/lights.ts:43 | the filter never grows the list |
| Lights.InStateMembers | convex/lights.ts:43 | the filter keeps exactly the lights in the given state, and no others |
| Lights.InStateSnoc | convex/lights.ts:43 | filtering a list with one more light at the end appends that light exactly when it is in the state asked for |
| Lights.InStatePartition | convex/lights.ts:42-44 | the on and off filters together account for every light |
| Lights.InStateAppend | convex/lights.ts:43 | filtering by state keeps list order: the filter of a concatenation is the filter of each part, one after the other |
| Lights.AllOnIff | convex/lights.ts:43 | the on filter keeps every light exactly when all lights are on (both directions) |
| Lights.Health | convex/lights.ts:45 | health lies in 0..100, is 0 for an empty table, and otherwise satisfies the half-up rounding bounds `2t·h <= 200·op + t < 2t·(h+1)` |
| Lights.HealthIsRoundedPercent | convex/lights.ts:45 | health is within one half of the exact percentage `100·op/t`: `h - 0.5 <= p < h + 0.5`, so it is `Math.round` of p |
| Lights.StatsOf | convex/lights.ts:38-53 | `getStats`: total is the count of lights, operational the count of lights on, failed the count of lights off, `operational + failed == total`, and health is as above |
| Lights.StatsFortyWithFiveOff | convex/lights.ts:42-45 | 40 lights with 5 off give `{40, 35, 5, 88}` |
| Lights.StatsAllOn | convex/lights.ts:42-45 | a non-empty table with every light on reports `{n, n, 0, 100}` |
| Lights.SetIsOn | convex/lights.ts:24-34 | `ctx.db.patch(id, { isOn })` on a snapshot: the document with that id gets the new `isOn`, every other document and the order stay as they were |
| Lights.SetIsOnIdempotent | convex/lights.ts:34 | setting a light's state twice equals setting it once |
| Lights.ToggleTwiceRestores | convex/lights.ts:24 | toggling the same light twice restores the snapshot |
| Lights.SetIsOnOperational | convex/lights.ts:24 | patching one light changes the operational count by that light's change alone |
| Lights.LightTable.constructor | convex/schema.ts:5 | a new table lists no lights |
| Lights.LightTable.List | convex/lights.ts:4-9 | `list` returns every stored document exactly once, each retrievable by its own id |
| Lights.LightTable.Get | convex/lights.ts:11-16 | `get` finds a document exactly when its id is stored, and it carries that id |
| Lights.LightTable.Patch | convex/lights.ts:24 | `patch` changes only the addressed document's `isOn`; every other document and the order are unchanged |
| Lights.LightTable.Toggle | convex/lights.ts:18-26 | a missing id fails with "Light not found" and changes nothing; otherwise only that light's `isOn` is negated |
| Lights.LightTable.SetStatus | convex/lights.ts:28-36 | a missing id fails with "Light not found" and changes nothing; otherwise only that light's `isOn` becomes the argument |
| Lights.LightTable.GetStats | convex/lights.ts:38-53 | the stats cover every stored light; `operational + failed == total`; health is at most 100 |
| Lights.LightTable.Insert | convex/seed.ts:52 | `insert` appends the document under an id not used before; everything already stored stays as it was |
| Zones.InZone | app/simulation/page.tsx:18-21 | a zone's lights are never more than all the lights |
| Zones.InZoneMembers | app/simulation/page.tsx:18-21 | the lights of a zone are exactly the lights whose `zone` is that name |
| Zones.InZoneSnoc | app/simulation/page.tsx:18-21 | one more light at the end joins its own zone's lights, at the end, and no other zone's |
| Zones.InZoneAppend | app/simulation/page.tsx:21 | filtering by zone keeps list order: it distributes over concatenation |
| Zones.InZoneInState | app/dashboard/page.tsx:26 | filtering by zone and by state commute |
| Zones.ZoneNames | app/dashboard/page.tsx:21-23 | the dictionary keys in insertion order: a zone is added after the ones before it the first time one of its lights is met |
| Zones.ZoneNamesSnoc | app/dashboard/page.tsx:22-23 | a light's zone becomes a new key at the end only the first time it is met |
| Zones.ZoneNamesMembers | app/dashboard/page.tsx:22-23 | the keys are distinct, and they are exactly the zones that have at least one light |
| Zones.ZoneSizesCover | app/dashboard/page.tsx:21-28 | over distinct names covering every light's zone, the zone sizes sum to the number of lights |
| Zones.ZoneNamesPartition | app/dashboard/page.tsx:21-28 | over the zone names, the zone sizes sum to the number of lights, and so do the sizes of the "on" lights per zone |
| Dashboard.FullyHealthyIff | app/dashboard/page.tsx:106 | a zone is shown green exactly when every light in it is on |
| Dashboard.TallyOfSnoc | app/dashboard/page.tsx:25-26 | counting one more light adds one to its own zone's total, adds one to its operational count if it is on, and leaves every other zone as it was |
| Dashboard.FullyHealthy | app/dashboard/page.tsx:106-112 | the counter and the bar are green exactly when `operational === total` |
| Dashboard.AddLight | app/dashboard/page.tsx:22-26 | the callback's update: a missing zone gets `{ total: 0, operational: 0 }`, then its total goes up by one and its operational count by one if the light is on; other entries stay |
| Dashboard.Step | app/dashboard/page.tsx:21-27 | the callback on the dictionary and its key order: a zone not yet a key is appended to the keys |
| Dashboard.Reduce | app/dashboard/page.tsx:21-28 | `reduce` from `{}`: the callback applied to the lights in list order |
| Dashboard.TalliesStepAt | app/dashboard/page.tsx:22-26 | each entry after one more light is the callback's update of the entry before |
| Dashboard.TalliesStep | app/dashboard/page.tsx:22-26 | the dictionary of a longer prefix is the callback applied to the dictionary of the shorter one |
| Dashboard.TalliesBounds | app/dashboard/page.tsx:22-26 | every entry has `total >= 1` and `operational <= total` |
| Dashboard.SumTalliesOfTallyOf | app/dashboard/page.tsx:21-28 | summing the entries over a list of names sums the zone sizes and the per-zone on-counts |
| Dashboard.TalliesSum | app/dashboard/page.tsx:21-28 | summed over all zones, the totals give the number of lights and the operational counts give `getStats().operational` |
| Dashboard.ReduceMeaning | app/dashboard/page.tsx:21-28 | the reduce lists the zones in first-seen order and gives each zone its count of lights and of lights on |
| Dashboard.ReduceTotals | app/dashboard/page.tsx:21-28 | in the reduce's result the keys are the zone names; each entry is that zone's tally with `1 <= total` and `operational <= total`; the entries sum to `{number of lights, getStats().operational}` |
| Dashboard.SummarizeZones | app/dashboard/page.tsx:21-28 | `undefined` exactly while the list is loading; otherwise the in-place loop builds the fold's result |
| Dashboard.FailedLights | app/dashboard/page.tsx:30 | empty while loading; otherwise exactly the lights that are off, and as many as `total - operational` |
| Dashboard.FailedLightsKeepOrder | app/dashboard/page.tsx:30 | `failedLights` keeps list order: one light is listed exactly when it is off, and a concatenation lists the first part's failed lights, then the second's |
| Simulation.GroupsStepAt | app/simulation/page.tsx:18-21 | each array after one more light is the callback's update of the array before |
| Simulation.GroupsStep | app/simulation/page.tsx:18-21 | the groups of a longer prefix are the callback applied to the groups of the shorter one |
| Simulation.Push | app/simulation/page.tsx:18-21 | the callback's update: a missing zone gets `[]`, then the light is pushed at the end of its zone's array; other arrays stay |
| Simulation.Step | app/simulation/page.tsx:17-22 | the callback on the dictionary and its key order: a zone not yet a key is appended to the keys |
| Simulation.Reduce | app/simulation/page.tsx:17-23 | `reduce` from `{}`: the callback applied to the lights in list order |
| Simulation.ReduceMeaning | app/simulation/page.tsx:17-23 | the reduce lists the zones in first-seen order and gives each zone its lights in list order |
| Simulation.GroupSizesOfGroups | app/simulation/page.tsx:17-23 | summing the array sizes over some names sums the zone sizes |
| Simulation.ReduceGroupsPartition | app/simulation/page.tsx:17-23 | the keys are the zone names and no array is empty; a light is in a zone's array exactly when it has that zone, so it is in exactly one array; the array sizes sum to the number of lights |
| Simulation.ReduceKeepsOrder | app/simulation/page.tsx:21 | grouping a concatenation appends each zone's arrays, so arrays keep list order |
| Simulation.GroupByZone | app/simulation/page.tsx:17-23 | `undefined` exactly while the list is loading; otherwise the in-place loop builds the fold's result |
| Seed.Ratio | convex/seed.ts:22 | the ratio is 0 for the first pair, 1 for the last, and between 0 and 1 for all pairs |
| Seed.CentreLat | convex/seed.ts:23 | the centreline latitude of pair i, interpolated linearly from start to end |
| Seed.CentreLng | convex/seed.ts:24 | the centreline longitude of pair i, interpolated linearly from start to end |
| Seed.Label | convex/seed.ts:36-46 | the label is the side's prefix followed by the numeral of i+1 |
| Seed.LeftLight | convex/seed.ts:31-38 | the Left light of pair i: offset (+0.0002, -0.0002) from the centreline, on, in the Left zone, labelled "L-" and i+1, status "operational" |
| Seed.RightLight | convex/seed.ts:41-48 | the Right light of pair i: offset (-0.0002, +0.0002) from the centreline, on, in the Right zone, labelled "R-" and i+1, status "operational" |
| Seed.Planned | convex/seed.ts:21-48 | push k of the loop: the Left light of pair k/2 when k is even, its Right light when k is odd |
| Seed.Plan | convex/seed.ts:19-49 | the array holds `2·count = 40` entries, entry k being the k-th light pushed |
| Seed.CentreEnds | convex/seed.ts:22-24 | the first and last centreline points are the start and end coordinates |
| Seed.PairSymmetric | convex/seed.ts:28-44 | Left is offset by (+offset, -offset) and Right by (-offset, +offset), so the centreline point is their midpoint |
| Seed.PlanAllOperational | convex/seed.ts:34-47 | every seeded light is on with status "operational" |
| Seed.PlanLabels | convex/seed.ts:30-48 | entry 2i is in the Left zone with label "L-" plus a numeral, and entry 2i+1 is in the Right zone with "R-"; the numeral reads back as i+1 |
| Seed.PlanLabelsDistinct | convex/seed.ts:36-46 | no two seeded lights share a label |
| Seed.PairAddsOne | convex/seed.ts:31-48 | each Left/Right pair adds one light to each zone |
| Seed.ZoneCountsPrefix | convex/seed.ts:21-48 | the first m pairs hold m lights of each zone |
| Seed.PlanAlternates | convex/seed.ts:30-48 | the seeded documents alternate Left and Right, pair by pair |
| Seed.SeededTotals | convex/seed.ts:18-53 | after seeding, every light is in one of the two runway zones, each zone has exactly 20 lights, and `getStats` reports `{40, 40, 0, 100}` |
| Seed.SeededMessage | convex/seed.ts:55 | the result string is "Seeded 40 lights" |
| Seed.PlannedPair | convex/seed.ts:30-48 | pair i is pushed as entries 2i (Left) and 2i+1 (Right) |
| Seed.BuildPairs | convex/seed.ts:19-49 | the push loop builds exactly the planned 40 entries |
| Seed.SeedLights | convex/seed.ts:5-56 | a non-empty table returns nothing and is unchanged; an empty table ends up holding the 40 planned documents in order, and the result is "Seeded 40 lights" |
| Seed.SeedTwice | convex/seed.ts:6-7 | a second run returns nothing, so the table is as the first run left it |
| AddLightModal.ZoneChoicesWellFormed | components/AddLightModal.tsx:20-27 | six distinct zones, none equal to the empty placeholder value |
| AddLightModal.CanSubmit | components/AddLightModal.tsx:43 | `label && zone`: both strings are non-empty |
| AddLightModal.SubmitDisabled | components/AddLightModal.tsx:110 | `disabled` when the label or the zone is empty |
| AddLightModal.SubmitEnabledIffGuard | components/AddLightModal.tsx:110 | the submit button is enabled exactly when `handleSubmit`'s guard (line 43) would pass |
| AddLightModal.AddLightForm.constructor | components/AddLightModal.tsx:36-37 | label and zone both start empty |
| AddLightModal.AddLightForm.SetLabel | components/AddLightModal.tsx:75 | typing sets the label and leaves the zone |
| AddLightModal.AddLightForm.SetZone | components/AddLightModal.tsx:85-97 | only a zone from the menu list can be picked; picking one sets the zone and leaves the label |
| AddLightModal.AddLightForm.HandleSubmit | components/AddLightModal.tsx:41-49 | `onAdd` is called, exactly once and with the current label and zone, exactly when both are non-empty, and the zone is one from the menu list; then both are cleared and `onClose` is called; otherwise nothing is called and nothing changes |
| LightMap.QuickZone | components/Map.tsx:54 | for a draw in [0, 1) the quick-add zone is one of the six `ZONES` |
| LightMap.QuickSuffix | components/Map.tsx:55 | for a draw in [0, 1) the quick-add number lies in 10000..99999 |
| LightMap.QuickLabel | components/Map.tsx:59 | `Quick-${randomId}`: "Quick-" followed by the numeral of the drawn number |
| LightMap.QuickLabelShape | components/Map.tsx:59 | a quick-add label is "Quick-" followed by exactly five digits that read back as the drawn number |
| LightMap.MapEditor.constructor | components/Map.tsx:42-46 | the modal starts closed, with no pending location, no requests and an empty form |
| LightMap.MapEditor.SetModes | components/Map.tsx:35-38 | the parent may change either mode prop at any time; the modal, the pending location and the requests are kept |
| LightMap.MapEditor.TypeLabel | components/AddLightModal.tsx:39-75 | the label input exists only while the modal is open; typing sets the form's label and leaves its zone and the editor's state |
| LightMap.MapEditor.PickZone | components/AddLightModal.tsx:39-97 | the zone menu exists only while the modal is open and offers only listed zones; picking one sets the form's zone and leaves its label and the editor's state |
| LightMap.MapEditor.Click | components/Map.tsx:50-67 | editor mode off: nothing changes. Quick-add: exactly one create request at the clicked point, with a listed zone and a "Quick-" label, and the modal state untouched. Otherwise: the clicked point becomes pending and the modal opens, with no request |
| LightMap.MapEditor.OnClose | components/Map.tsx:103 | closing hides the modal and keeps the pending location |
| LightMap.MapEditor.OnAdd | components/Map.tsx:104-113 | with a pending location, one request at that location with the form's label and zone; without one, nothing |
| LightMap.MapEditor.Submit | components/Map.tsx:101-116 | while the modal is open, whatever the mode props now are, a complete form adds at most one request, at the pending location and in a zone from the menu list, clears the form and closes the modal; an incomplete form changes nothing |

## Left out

- `create`, `remove` and `updatePosition` are not defined in `convex/lights.ts`. The editor's `createLight` calls are therefore recorded as requests (`MapEditor.created`) and not applied to any table. No drag or delete is modelled: `LightMarker` ignores the editor flag.
- Convex reactivity is not modelled: query subscriptions, `await`, and several clients writing concurrently. Each mutation is one atomic step on the table, and each page works on one snapshot.
- Coordinates and the interpolation ratio are exact reals. The doubles of the source, `toFixed` display and the progress-bar width are not modelled.
- Lights.Health: computed in exact arithmetic as round-half-up of `100·op/total`. The source divides in doubles before `Math.round`, and the quotient can fall just below a .5 boundary. For 23 of 40 lights on, `(23/40)*100` is 57.49999999999999 in doubles, which rounds to 57, while the exact percentage 57.5 rounds to 58. The model follows the exact rule.
- Dashboard.SummarizeZones: keys are listed in first-seen order. `Object.entries` lists integer-like keys (a zone named "12", say) first in ascending order. Zone names that are `Object.prototype` members (such as "constructor") make `!acc[zone]` false and break the source's reduce. Neither case is modelled.
- Simulation.GroupByZone: the same two key-order and prototype-name caveats apply.
- Decimal.DecimalString: it is the plain decimal numeral. It matches JavaScript's `${n}` only for n up to 2^53; larger numbers print in exponent form or rounded in JavaScript. The app prints no number above 99999.
- `Math.random()` is a parameter, a real number in [0, 1), one for the zone and one for the quick-add number.
- The `status` field is stored and seeded, but nothing in the core reads it or keeps it consistent with `isOn`.
- The modal's state survives closing: cancelling keeps the typed label and zone. Only a successful submit clears them. The model keeps this behaviour as is.
- `Map.tsx` and `AddLightModal.tsx` each declare the same six-entry `ZONES` list. The model defines it once, as `AddLightModal.ZoneChoices`.
- Presentation is not modelled: Leaflet layers and the icon fix, marker colours, badge text, fonts and all markup.
