# Population engine: a verified model

This project models the spawn-request engine of the MHServerEmu game server.
Two source files make up that engine:

- `PopulationManager.cs` holds the per-region registry of pending spawn requests
  (`PopulationObject`s) and the region's black-out zones.
- `PopulationArea.cs` generates the requests for one area: ambient enemies
  against a density budget, then one representative encounter per spawn-marker
  type.

Both are imperative, and so is the model.

- `PopulationObject`, `PopulationManager` and `PopulationArea` are Dafny classes,
  and their methods update fields in place.
- The manager's two request lists are `seq` fields. Each is proved, through the
  `Valid()` invariant, to be the marker-scoped or the non-marker filter of every
  request registered so far.
- The black-out zone table is a `map` field and the spatial partition an
  `Option` field.
- The manager also keeps a ghost `log` of the value of every request at the
  moment it was registered. Every registering method is proved to append exactly
  what a reference function of its inputs prescribes.
  - Missions: `MissionRequests`.
  - Metastates: `MetaStateBlocks`.
  - Required objects: `RequiredBlock`.
  - Ambient draws: `AmbientRequests`.
  - The marker pass: `MarkerRegistrations` over `Grouped`.
- Lemmas over those functions state what the engine promises.
- Collaborators whose code is not part of this model are oracle classes that
  record the calls made to them (`SpawnMarkers.SpawnMarkerRegistry`,
  `SpawnMarkers.ClusterLayer`). Their answers are arbitrary functions of the call
  history, so every proved property holds for any answering behaviour.
- The weighted random choice of `Picker` becomes a nondeterministic choice (`:|`)
  of a current candidate. Drawing without replacement also removes the candidate.

Modules and files:

| file | module | models |
|---|---|---|
| `population_data.dfy` | `PopulationData` | prototype records, region view, the request value `NewRequest`, C# casts |
| `spawn_markers.dfy` | `SpawnMarkers` | the spawn-marker registry and cluster layer as call-recording oracles |
| `registration.dfy` | `Registration` | reference definitions for mission, metastate and required-object registration, and their lemmas |
| `population_manager.dfy` | `PopulationManagement` | `PopulationObject`, `PopulationManager` |
| `encounters.dfy` | `Encounters` | reference definitions for the area pass (flattening, pickers, grouping, ambient budget), and their lemmas |
| `population_area.dfy` | `PopulationAreas` | `PopulationArea` |

Behaviour of the code that is easy to misread, and that the model keeps:

- **Black-out zone creation.** `SpawnBlackOutZone` inserts into the spatial
  partition unconditionally, so it never defers a zone until the partition is
  built. The model requires the partition to exist.
- **Encounter count.** The count is `Math.Max(1, (int)(slots * density))`. The
  `(int)` cast truncates toward zero (`TruncToInt`), so the code does not take the
  floor of the product.
- **Registered objects.** Every registering method returns, as ghost values, the
  objects it created (`objs`) and the requests it logged. It promises three
  things. The manager's earlier objects are kept as a prefix
  (`registered == old(registered) + objs`). Every returned object is new. Each
  holds the count of its logged request (`NewWithCounts`).
- **Marker list.** A marker-pass request goes to the marker-scoped list only when
  the encounter's object names a marker. When its `UsePopulationMarker` is
  invalid, `AddPopulationObject` files it among the non-marker requests, like any
  other request. `MarkerPassRequests` therefore states the request's marker,
  not that it is marker-scoped.
- **Negative counts.** Nothing keeps a request's count non-negative.
  - A mission entry's 64-bit count is wrapped to 32 bits (`ToInt32`).
  - A required object's declared count is used as given.
  - `SpawnByMarker` keeps a count non-negative only when it starts that way.

## Model

Source paths are relative to the repository root.

| member | source | states |
|---|---|---|
| PopulationManagement.PopulationObject.SpawnByMarker | src/MHServerEmu.Games/Generators/Population/PopulationManager.cs:26-51 | With no units left it returns false and touches neither the registry nor the cluster layer. Otherwise it asks the registry for exactly one reservation, for its marker, areas and cells. A granted reservation is stamped with the object and the mission, one cluster group is spawned at the marker's position and rotation, and count drops by exactly one; it returns true. A refusal leaves count, assignments and clusters unchanged; it returns false. A non-negative count stays non-negative. |
| PopulationManagement.PopulationManager.constructor | src/MHServerEmu.Games/Generators/Population/PopulationManager.cs:68-77 | A new manager has empty request lists, no zones, no partition, next black-out id 1, and a random seed taken from the region. |
| PopulationManagement.PopulationManager.AddPopulationObject | src/MHServerEmu.Games/Generators/Population/PopulationManager.cs:131-160 | Appends exactly one new object: to the marker list iff the marker ref is valid, otherwise to the non-marker list. The other list is unchanged. The object's fields equal the arguments, with spawn flags None, and the invariant tying both lists to the registration log is kept. |
| PopulationData.NewRequest | src/MHServerEmu.Games/Generators/Population/PopulationManager.cs:135-151 | A request carries a property bag iff its mission ref is valid, and that bag is tagged with the mission. Spawn flags are None and every other field is the given argument. |
| PopulationManagement.PopulationManager.AssetsToList | src/MHServerEmu.Games/Generators/Population/PopulationManager.cs:122-129 | An empty (or null) array gives an empty list. Otherwise length and order are kept, and entry i is the data ref of asset i. |
| PopulationManagement.NewWithCountsConcat | src/MHServerEmu.Games/Generators/Population/PopulationManager.cs:131-160 | Objects newly created by two successive registrations, each holding its request's count, are together new objects holding the counts of the concatenated requests. |
| PopulationManagement.PopulationManager.MissionRegisty | src/MHServerEmu.Games/Generators/Population/PopulationManager.cs:79-120 | A null mission registers nothing. Otherwise the log grows by exactly the requests `MissionRequests` prescribes, entry by entry in order. Earlier registered objects are kept as a prefix. Each object registered is fresh and holds the count of the request prescribed for it. |
| PopulationManagement.PopulationManager.RegisterMissionEntry | src/MHServerEmu.Games/Generators/Population/PopulationManager.cs:89-116 | One mission entry appends exactly `EntryRequests` of that entry to the log. Earlier registered objects are kept as a prefix, and each new object is fresh and holds its request's count. |
| PopulationManagement.PopulationManager.FindAreaInRegion | src/MHServerEmu.Games/Generators/Population/PopulationManager.cs:91-100 | True iff some listed area exists in the region. |
| PopulationManagement.PopulationManager.RegionAreaRefs | src/MHServerEmu.Games/Generators/Population/PopulationManager.cs:111-113 | Every area of the region, in iteration order, one entry per area. |
| Registration.EntryRequestsCases | src/MHServerEmu.Games/Generators/Population/PopulationManager.cs:89-116 | An entry whose restricted areas are all absent from the region registers nothing. An entry with a present area registers one request over exactly those areas. A region-only restriction registers one request over every area of the region. An entry with neither restriction registers nothing. Every request carries the mission, its property bag, the entry's template, marker, 32-bit count and resolved cells. |
| Registration.MissionRequestsAttributed | src/MHServerEmu.Games/Generators/Population/PopulationManager.cs:79-120 | A mission registers at most one request per population entry. Each request is attributed to the mission (`missionProto.DataRef`, and a property bag iff the mission ref is valid) and carries the data of one of the mission's entries. |
| Registration.EntriesAllAccepted | src/MHServerEmu.Games/Generators/Population/PopulationManager.cs:85-117 | When every entry names an area of the region, or is region-only, the mission registers exactly one request per entry. |
| Registration.NoSpawnsNoRequests | src/MHServerEmu.Games/Generators/Population/PopulationManager.cs:81-83 | A null mission, or one without population spawns, registers nothing. |
| PopulationData.ToInt32 | src/MHServerEmu.Games/Generators/Population/PopulationManager.cs:107 | The `(int)` cast of the 64-bit entry count is the 32-bit two's-complement value congruent to it, and the identity on values that fit. |
| PopulationManagement.PopulationManager.MetaStateRegisty | src/MHServerEmu.Games/Generators/Population/PopulationManager.cs:162-202 | The log grows by `MetaStateBlocks`: one `AddRequiredObjects` block after another, each in the order the picker drew it. A progression recurses only into its first state. An activation registers its sub-states and then its own objects. A sequencer adds each entry's objects. A wave instance registers every state. A population-maintain state with objects adds them, and an unknown state adds nothing. Earlier registered objects are kept as a prefix, and each new object is fresh and holds its request's count. |
| PopulationManagement.PopulationManager.RegisterStates | src/MHServerEmu.Games/Generators/Population/PopulationManager.cs:173-175 | Registering the states one after another appends their blocks in state order. Earlier registered objects are kept as a prefix, and each new object is fresh and holds its request's count. |
| PopulationManagement.PopulationManager.RegisterSequence | src/MHServerEmu.Games/Generators/Population/PopulationManager.cs:182-187 | Each sequencer entry appends one required-object block, in sequence order. Earlier registered objects are kept as a prefix, and each new object is fresh and holds its request's count. |
| Registration.MetaStateRequestsUnattributed | src/MHServerEmu.Games/Generators/Population/PopulationManager.cs:162-236 | Every request metastate registration produces carries no mission and no property bag, and has count 1 in a patrol region. |
| Registration.MoloidsOverride | src/MHServerEmu.Games/Generators/Population/PopulationManager.cs:198-200 | The Moloids population-maintain state in CH0402UpperEastRegion registers one request per object over every area of the region and its non-dynamic cells, whatever areas it declares. |
| Registration.BlocksMatchPermutation | src/MHServerEmu.Games/Generators/Population/PopulationManager.cs:224-238 | Registration in picker order gives, as a multiset and in number, exactly the requests of all prescribed blocks. |
| PopulationManagement.PopulationManager.AddRequiredObjects | src/MHServerEmu.Games/Generators/Population/PopulationManager.cs:204-239 | The log grows by exactly the requests of `RequiredBlock`, one per input entry, in some order. Earlier registered objects are kept as a prefix, and each new object is fresh and holds its request's count. In a patrol region every new object has count 1. |
| PopulationManagement.PopulationManager.DrawRequired | src/MHServerEmu.Games/Generators/Population/PopulationManager.cs:224-238 | Drawing without replacement until the picker is empty registers each entry's request exactly once: the added requests are a permutation of the block. Earlier registered objects are kept as a prefix, and each new object is fresh and holds its request's count. |
| PopulationManagement.PopulationManager.DrawRequiredObject | src/MHServerEmu.Games/Generators/Population/PopulationManager.cs:231-236 | One turn of the loop removes exactly one entry from the picker and registers its `RequiredRequest`: count 1 in a patrol region, the declared count otherwise, no mission. The drawn multiset plus what remains still equals the whole block. Exactly one fresh object is appended to the registry, holding the request's count, and objects registered before keep their counts. |
| Registration.PatrolCountsOne | src/MHServerEmu.Games/Generators/Population/PopulationManager.cs:233-234 | Whatever order the picker draws in, every request of a required-object block in a patrol region has count 1. |
| PopulationManagement.PopulationManager.RegionNonDynamicCellRefs | src/MHServerEmu.Games/Generators/Population/PopulationManager.cs:212-215 | The cells of the region whose area is not dynamic, in order. |
| Registration.RequiredBlockShape | src/MHServerEmu.Games/Generators/Population/PopulationManager.cs:204-238 | One request per required entry, with the entry's template and marker and no mission. Its count is 1 in a patrol region and the declared count otherwise. With no area restriction it spans every region area and the non-dynamic cells. Otherwise it uses the given areas verbatim and the given cells resolved. |
| Registration.NonDynamicCellRefsExact | src/MHServerEmu.Games/Generators/Population/PopulationManager.cs:212-215 | A cell id is listed iff some region cell with that id lies in a non-dynamic area. |
| PopulationManagement.PopulationManager.NextBlackOutId | src/MHServerEmu.Games/Generators/Population/PopulationManager.cs:66 | Returns the counter and advances it by exactly one. |
| PopulationManagement.PopulationManager.SpawnBlackOutZone | src/MHServerEmu.Games/Generators/Population/PopulationManager.cs:241-249 | Creates the zone under a fresh id of at least 1, namely the old counter, and advances the counter by one. The zone is stored under the returned id, nothing else in the table changes, and the zone is added to the partition. |
| PopulationManagement.PopulationManager.IterateBlackOutZoneInVolume | src/MHServerEmu.Games/Generators/Population/PopulationManager.cs:251-257 | No partition means no zones. Otherwise the result is exactly the stored zones that meet the sphere. |
| PopulationManagement.PopulationManager.InitializeSpacialPartition | src/MHServerEmu.Games/Generators/Population/PopulationManager.cs:259-266 | A second call changes nothing. The first call builds the partition over the given bounds, holding exactly the zones stored so far. |
| PopulationManagement.PopulationManager.InBlackOutZone | src/MHServerEmu.Games/Generators/Population/PopulationManager.cs:268-281 | With a mission: true iff every zone meeting the sphere belongs to that mission, so true when none does. Without one: true iff some zone meets the sphere. |
| PopulationAreas.PopulationArea.constructor | src/MHServerEmu.Games/Generators/Population/PopulationArea.cs:17-22 | A new area pass holds the given area and population ref, and the region's manager and spawn-marker registry. |
| PopulationAreas.PopulationArea.Generate | src/MHServerEmu.Games/Generators/Population/PopulationArea.cs:24-30 | A missing population prototype, or no playable or no spawnable navigation area, registers nothing and queries nothing. Otherwise the outcome is exactly that of one `Spawn` pass, including its registered objects: earlier ones kept as a prefix, new ones fresh and holding their logged counts. The first theme needs to resolve only when `Spawn` would not return early. |
| PopulationAreas.PopulationArea.Spawn | src/MHServerEmu.Games/Generators/Population/PopulationArea.cs:32-96 | Spawn maps enabled, both spawn-map densities positive, or no theme: nothing happens. Otherwise the log grows by the ambient requests of a valid draw sequence against the initial budget, then the marker pass requests. The registry is asked for free slots once per marker type, in first-appearance order, and no reservation is made. Earlier registered objects are kept as a prefix, and each new object is fresh and holds its logged count. |
| PopulationAreas.PopulationArea.SpawnFromTheme | src/MHServerEmu.Games/Generators/Population/PopulationArea.cs:39-95 | With the first theme resolved, the draws obey the ambient draw rule against `InitialDensity` of the area and the population. The log grows by their ambient requests and then the marker-pass requests. Free slots are queried once per distinct marker type, and no reservation is made. Earlier registered objects are kept as a prefix, and each new object is fresh and holds its request's count. |
| PopulationAreas.PopulationArea.SpawnMarkerPass | src/MHServerEmu.Games/Generators/Population/PopulationArea.cs:54-95 | After gathering the global then the theme encounters, the registry's slot queries grow by one per distinct marker type. The log grows by `MarkerRegistrations` over the grouped pickers. Earlier registered objects are kept as a prefix, and each new object is fresh and holds its request's count. |
| PopulationAreas.PopulationArea.SpawnAmbient | src/MHServerEmu.Games/Generators/Population/PopulationArea.cs:45-52 | The loop ends and its draws obey the draw rule (`AmbientDraws`). Each draw appends its ambient request to the log. Earlier registered objects are kept as a prefix, and each new object is fresh and holds its request's count. |
| PopulationAreas.PopulationArea.DrawAmbient | src/MHServerEmu.Games/Generators/Population/PopulationArea.cs:48-51 | One draw takes a picker object while budget remains, charges its average size to the budget and registers it. The loop invariant is kept and the draw count grows by one. Exactly one fresh object is appended to the registry, holding count 1, and objects registered before keep their counts. |
| Encounters.InitialDensity | src/MHServerEmu.Games/Generators/Population/PopulationArea.cs:45 | The budget is the spawnable navigation area over `PopulationClusterSq`, scaled by the cluster density percent: times `PopulationClusterSq` and 100 it gives back area times percent. It is positive when both are positive. |
| Encounters.AmbientRequests | src/MHServerEmu.Games/Generators/Population/PopulationArea.cs:48-51 | One request per draw, for the drawn object. Each has no marker, count 1, areas `[Area.PrototypeDataRef]`, no cell, no mission and no property bag. |
| Encounters.AmbientNothing | src/MHServerEmu.Games/Generators/Population/PopulationArea.cs:48 | With a non-positive budget, or an empty picker, nothing is drawn. |
| Encounters.AmbientOvershoot | src/MHServerEmu.Games/Generators/Population/PopulationArea.cs:48-52 | With sizes between `minSize > 0` and `maxSize`, the draws exceed the budget by less than one object. Their number is bounded by their total size over `minSize`. |
| Encounters.DrawsBounded | src/MHServerEmu.Games/Generators/Population/PopulationArea.cs:48-52 | Draws of at least `minSize` that leave budget are fewer than `budget / minSize + 1`, so the ambient loop terminates. |
| Encounters.PickerSizesPositive | src/MHServerEmu.Games/Generators/Population/PopulationArea.cs:47 | When every theme enemy has a positive average size, so does every candidate of the ambient picker. |
| PopulationAreas.PopulationArea.GroupEncounters | src/MHServerEmu.Games/Generators/Population/PopulationArea.cs:59-86 | The marker types come out each once, in order of first appearance. The pickers equal `Grouped`. The registry receives one free-slot query per type, in that order, and makes no reservation. |
| PopulationAreas.PopulationArea.NewSpawnPicker | src/MHServerEmu.Games/Generators/Population/PopulationArea.cs:69-81 | A type's first encounter asks the registry once for the slots of that type in this area. Zero slots gives no picker and count 0. Otherwise it gives an empty picker and the density-scaled count. |
| PopulationAreas.PopulationArea.JoinPicker | src/MHServerEmu.Games/Generators/Population/PopulationArea.cs:84-85 | An encounter joins its type's picker, with its weight, iff the type's count is positive. The count is unchanged. |
| Encounters.Joined | src/MHServerEmu.Games/Generators/Population/PopulationArea.cs:84-85 | A picker with a positive count gains exactly the encounter's object and weight at its end. A non-positive count leaves it as it was. |
| Encounters.GroupedPicker | src/MHServerEmu.Games/Generators/Population/PopulationArea.cs:72-79 | A type has a picker iff its free-slot count is non-zero, iff its count is positive. Its picker is then the type's candidates and its count the density-scaled one. |
| Encounters.EncounterCount | src/MHServerEmu.Games/Generators/Population/PopulationArea.cs:76-77 | `max(1, (int)(slots * pct / 100))`: at least 1, and the truncated product whenever that is at least 1. |
| PopulationData.TruncToInt | src/MHServerEmu.Games/Generators/Population/PopulationArea.cs:77 | The `(int)` cast of a float truncates toward zero. |
| Encounters.GroupedExact | src/MHServerEmu.Games/Generators/Population/PopulationArea.cs:59-86 | Exactly the marker types that occur get an entry. A type has a picker iff the registry reported free slots for it. A type with a picker has the density-scaled count and a non-empty set of candidates. A candidate is in it iff some encounter of that type carries that object and weight. |
| Encounters.DistinctMarkersExact | src/MHServerEmu.Games/Generators/Population/PopulationArea.cs:61-82 | The dictionary keys list each type once, and exactly the types the encounters use. |
| Encounters.SlotQueriesOncePerMarker | src/MHServerEmu.Games/Generators/Population/PopulationArea.cs:66-81 | Free slots are queried at most once per marker type, and for every type met. |
| PopulationAreas.PopulationArea.RegisterMarkerPicks | src/MHServerEmu.Games/Generators/Population/PopulationArea.cs:88-95 | For each type in key order there is one request if it has a picker, and none otherwise. Each request carries the type's marker, its count, the area, no cell and no mission, and an object its picker holds. Earlier registered objects are kept as a prefix, and each new object is fresh and holds its request's count. |
| PopulationAreas.PopulationArea.RegisterMarkerPick | src/MHServerEmu.Games/Generators/Population/PopulationArea.cs:93-94 | One type's turn draws an object its picker holds and logs one request with the type's marker, the picker's count, the area and no cell. Exactly one fresh object is appended to the registry, holding that count, and objects registered before keep their counts. |
| Encounters.MarkerPassRequests | src/MHServerEmu.Games/Generators/Population/PopulationArea.cs:88-95 | There are at most as many requests as types, and no type twice. Each request names a type met among the encounters with non-zero free slots, so a zero-slot type never registers. It has count `max(1, trunc(slots * pct / 100))`, area `[Area]`, no cell and no mission. Its template is one some encounter of that type targets. |
| Encounters.MarkerPassCovers | src/MHServerEmu.Games/Generators/Population/PopulationArea.cs:88-95 | Every type met among the encounters with non-zero free slots gets a request. |
| Encounters.MarkerRegistrationsLength | src/MHServerEmu.Games/Generators/Population/PopulationArea.cs:88-95 | The marker pass makes at most one request per listed type. |
| Encounters.MarkerRegistrationsDistinct | src/MHServerEmu.Games/Generators/Population/PopulationArea.cs:88-95 | With distinct keys, no two marker-pass requests name the same type. |
| Encounters.CandidatesForListed | src/MHServerEmu.Games/Generators/Population/PopulationArea.cs:66-85 | A type gets candidates iff it is listed among the keys. |
| Encounters.CandidatesForSound | src/MHServerEmu.Games/Generators/Population/PopulationArea.cs:84-85 | Every candidate of a type comes from an encounter of that type, with its weight. |
| PopulationAreas.PopulationArea.GetContainedEncounters | src/MHServerEmu.Games/Generators/Population/PopulationArea.cs:98-112 | The caller's list grows by exactly the depth-first flattening `Contained` of the object list. |
| Encounters.ContainedAreEncounters | src/MHServerEmu.Games/Generators/Population/PopulationArea.cs:100-107 | Only non-null entries with positive weight whose object is a leaf population object come out of the flattening. |
| Encounters.ContainedSplit | src/MHServerEmu.Games/Generators/Population/PopulationArea.cs:100-107 | Each entry's contribution sits, in input order, between those of the entries before it and after it. |
| Encounters.TopLevelLeafKept | src/MHServerEmu.Games/Generators/Population/PopulationArea.cs:100-105 | A leaf entry with positive weight is kept wherever it is in the list. |
| Encounters.SpawnEncountersAreEncounters | src/MHServerEmu.Games/Generators/Population/PopulationArea.cs:54-56 | Everything `Spawn` gathers from the global and theme encounter lists is a kept leaf encounter. |
| PopulationAreas.PopulationArea.PopulatePicker | src/MHServerEmu.Games/Generators/Population/PopulationArea.cs:114-126 | The picker is filled with `PickerEntries`: the entries whose lookup gives a population object, with their weights, in input order. |
| Encounters.PickerEntriesExact | src/MHServerEmu.Games/Generators/Population/PopulationArea.cs:117-123 | A candidate is in the picker iff some entry of the list is a leaf carrying that object and weight. |
| Encounters.PickerEntriesLength | src/MHServerEmu.Games/Generators/Population/PopulationArea.cs:117-123 | Skipping entries never adds any, and a list of leaves loses none. |

## Left out

- Weighted random selection: `Picker`, `GRandom` and `Game.Random` weights are not
  modelled. A draw is any current candidate, so contracts hold for every choice
  the weights could make. Zero-weight candidates are treated as drawable.
- The per-request random stream (`PopulationObject.Random`) and the manager's
  `Random` are not modelled. The manager keeps only the seed.
- `Dictionary` iteration order. The marker pass visits types in insertion order,
  which `Dictionary<,>` gives in practice when nothing is removed; it does not
  promise that order.
- Floating point: `float` densities, areas and sizes are `real`, so there is no
  rounding. A float-to-int overflow in `(int)(slots * dencity)` is not modelled.
- Integer overflow of `Count--` and `_blackOutId++`: counts and ids are unbounded
  integers. Only the `(int)` cast of a mission entry's 64-bit count wraps
  (`ToInt32`).
- Collaborators whose code is not part of this model are oracles or parameters:
  - `ClusterGroup` initialisation, positioning and spawning;
  - `SpawnMarkerRegistry.ReserveFreeReservation` and `CalcFreeReservation`;
  - the `BlackOutSpatialPartition` geometry, as an abstract `intersects`
    predicate;
  - `GetAverageSize`, a field of the object;
  - `GetEncounterDensity`, a function of the population prototype;
  - `GameDatabase` lookups, an injected read-only store;
  - `RegionManager.PatrolRegions`, a set given to the manager.
- The numeric value of `RegionPrototypeId.CH0402UpperEastRegion` lives in an
  enum that is not part of this model. It is left as an unspecified constant.
- `IterateBlackOutZoneInVolume` is generic over any `IBounds`. The model takes
  the sphere `InBlackOutZone` passes.
- Null values in the source:
  - Arrays that are only read through `HasValue`/`IsNullOrEmpty` are sequences,
    with null taken as empty.
  - Prototypes the code checks for null are `Option`s: the mission, the
    population, the global and theme encounter lists, and list entries.
  - Zones in the table are never null. The `zone.Value != null` check of
    `InitializeSpacialPartition` is therefore vacuous.
- Crashes on null, where the source throws a `NullReferenceException` and the
  model does not:
  - `Spawn` dereferences the first theme and its `Enemies` without a check
    (PopulationArea.cs:46-47). The model requires that theme to resolve
    (`SpawnReady`), but only when the early returns of PopulationArea.cs:36-37
    do not apply.
  - `SpawnBlackOutZone` dereferences the partition
    (PopulationManager.cs:246), so the model requires one.
  - The other unchecked dereferences are ruled out by the types: each of the
    following is a non-null value, a sequence or a resolved record, so the
    model proceeds where the source would throw.
    - `missionActivate.PopulationObjects.Length` in the debug log line
      (PopulationManager.cs:177), read before `AddRequiredObjects` calls
      `IsNullOrEmpty`. The same goes for `missionEntry.PopulationObjects.Length`
      (PopulationManager.cs:185).
    - The `foreach` over `populationObjects` (PopulationManager.cs:226), which
      throws on a null array. The model takes null as empty there.
    - `entry.Population` (PopulationManager.cs:107 and :115) and
      `popObject.GetPopObject()` (PopulationManager.cs:235-236), whose results
      are dereferenced unchecked.
    - `GlobalEncounters.List` and the theme's `Encounters.List`
      (PopulationArea.cs:55-56). The model reads a null list as empty.
    - A nested list and its `List` (PopulationArea.cs:100 and :107).
    - The entries of `Enemies.List` (PopulationArea.cs:119), dereferenced
      before the lookup's null check.
- `PopulationAreas.PopulationArea.SpawnAmbient` requires every ambient candidate
  to have a positive average size (part of `SpawnReady`). Without it the source
  loop need not terminate.
- The second prototype lookup in `GetContainedEncounters`
  (PopulationArea.cs:109-110) has no effect and is not modelled.
- `SpawnPicker` is a value (`Encounters.SpawnPicker`), not a shared object. The
  grouping loop writes each updated picker back into the map, which is
  equivalent because no other reference to it is kept.
- `GetContainedEncounters` appends to the caller's list. The model returns the
  extended list instead of mutating a shared one.
- Metastates are given as a resolved tree (`PopulationData.MetaState`), so
  recursion terminates by structure. The source looks prototypes up by id and
  has no cycle check; a cyclic metastate graph is not modelled.
- Logging calls are not modelled.
