/** The per-region registry of pending spawn requests and of black-out zones,
    and the spawn request itself. */
module PopulationManagement {
  import opened PopulationData
  import opened SpawnMarkers
  import opened Registration

  /** A pending, mutable spawn request. Only `count` changes after registration.
      The request's random stream (`Game.Random`) is not modelled. */
  class PopulationObject {
    const markerRef: PrototypeId
    const missionRef: PrototypeId
    const properties: Option<PropertyCollection>
    const spawnFlags: SpawnFlags
    const objectProto: PopObjectProto
    const spawnAreas: seq<PrototypeId>
    const spawnCells: seq<PrototypeId>
    var count: int

    constructor (r: Request)
      ensures Describes(r) && count == r.count
    {
      markerRef, missionRef, properties, spawnFlags := r.markerRef, r.missionRef, r.properties, r.spawnFlags;
      objectProto, spawnAreas, spawnCells := r.objectProto, r.spawnAreas, r.spawnCells;
      count := r.count;
    }

    /** The immutable fields agree with `r`. */
    predicate Describes(r: Request)
    {
      && markerRef == r.markerRef && missionRef == r.missionRef && properties == r.properties
      && spawnFlags == r.spawnFlags && objectProto == r.objectProto
      && spawnAreas == r.spawnAreas && spawnCells == r.spawnCells
    }

    function Query(cell: CellInfo): ReservationRequest
    {
      ReservationRequest(markerRef, cell, spawnAreas, spawnCells)
    }

    /** Spawns one unit at a free marker of `cell`'s region. With no units left
        nothing is asked of the registry; a refused reservation changes nothing
        but the registry's call log; a granted one is stamped, a cluster group is
        spawned there and one unit is used up. */
    method SpawnByMarker(cell: CellInfo, registry: SpawnMarkerRegistry, clusters: ClusterLayer) returns (spawned: bool)
      modifies this, registry, clusters
      ensures old(count) == 0 ==> !spawned && count == 0 && unchanged(registry) && unchanged(clusters)
      ensures old(count) != 0 ==>
        registry.reservationRequests == old(registry.reservationRequests) + [Query(cell)]
        && registry.slotQueries == old(registry.slotQueries)
      ensures old(count) != 0 ==>
        var granted := registry.reserve(|old(registry.reservationRequests)|, Query(cell));
        && spawned == granted.Some?
        && (spawned ==>
              && count == old(count) - 1
              && registry.assignments == old(registry.assignments) + [Assignment(granted.value, objectProto, missionRef)]
              && clusters.spawned == old(clusters.spawned) +
                   [ClusterSpawn(objectProto, properties, spawnFlags, granted.value.regionPosition, granted.value.markerRot)])
        && (!spawned ==>
              count == old(count) && registry.assignments == old(registry.assignments) && unchanged(clusters))
      ensures old(count) >= 0 ==> count >= 0
    {
      if count == 0 {
        return false;
      }
      var reservation := registry.ReserveFreeReservation(Query(cell));
      if reservation.Some? {
        registry.Assign(reservation.value, objectProto, missionRef);
        var group := ClusterSpawn(objectProto, properties, spawnFlags,
                                  reservation.value.regionPosition, reservation.value.markerRot);
        clusters.SpawnGroup(group);
        count := count - 1;
        return true;
      }
      return false;
    }
  }

  /** The requests of `objs` that target a spawn marker, in order. */
  function MarkerScoped(objs: seq<PopulationObject>): seq<PopulationObject>
  {
    if objs == [] then []
    else
      var last := objs[|objs| - 1];
      MarkerScoped(objs[..|objs| - 1]) + (if last.markerRef != Invalid then [last] else [])
  }

  /** The requests of `objs` that do not target a spawn marker, in order. */
  function NonMarkerScoped(objs: seq<PopulationObject>): seq<PopulationObject>
  {
    if objs == [] then []
    else
      var last := objs[|objs| - 1];
      NonMarkerScoped(objs[..|objs| - 1]) + (if last.markerRef == Invalid then [last] else [])
  }

  /** Each object of `objs` holds the count of the matching request. */
  ghost predicate HoldCounts(objs: seq<PopulationObject>, reqs: seq<Request>)
    reads objs`count
  {
    |objs| == |reqs| && forall i :: 0 <= i < |objs| ==> objs[i].count == reqs[i].count
  }

  /** Every object of `objs` was created by the call, and each holds the count
      of the request it was registered for. */
  twostate predicate NewWithCounts(new objs: seq<PopulationObject>, new reqs: seq<Request>)
    reads objs`count
  {
    && (forall i :: 0 <= i < |objs| ==> fresh(objs[i]))
    && HoldCounts(objs, reqs)
  }

  /** New objects registered in two runs are new objects of the whole. */
  twostate lemma NewWithCountsConcat(new objs: seq<PopulationObject>, new reqs: seq<Request>,
                                     new more: seq<PopulationObject>, new moreReqs: seq<Request>)
    requires NewWithCounts(objs, reqs) && NewWithCounts(more, moreReqs)
    ensures NewWithCounts(objs + more, reqs + moreReqs)
  {
    forall i | 0 <= i < |objs + more|
      ensures fresh((objs + more)[i]) && (objs + more)[i].count == (reqs + moreReqs)[i].count
    {
      if i >= |objs| {
        assert (objs + more)[i] == more[i - |objs|];
        assert (reqs + moreReqs)[i] == moreReqs[i - |objs|];
      }
    }
  }

  /** The spatial index over black-out zones: its bounds and the zones inserted. */
  datatype BlackOutPartition = BlackOutPartition(bound: Aabb, elements: set<BlackOutZone>)

  class PopulationManager {
    const region: Region
    const db: GameDatabase
    /** `RegionManager.PatrolRegions`. */
    const patrolRegions: set<PrototypeId>
    /** The partition's geometry: does a zone's volume meet the query sphere. */
    const intersects: (BlackOutZone, Sphere) -> bool
    /** The seed of the manager's own random stream. */
    const randomSeed: int

    var populationMarkers: seq<PopulationObject>
    var populationObjects: seq<PopulationObject>
    var blackOutId: int
    var blackOutZones: map<int, BlackOutZone>
    var blackOutPartition: Option<BlackOutPartition>

    /** Every request ever registered, in registration order, ... */
    ghost var registered: seq<PopulationObject>
    /** ... and its value at registration. */
    ghost var log: seq<Request>

    function Ctx(): Context
    {
      Context(region, db, region.prototypeId in patrolRegions)
    }

    ghost predicate Valid()
      reads this
    {
      && |registered| == |log|
      && (forall i :: 0 <= i < |log| ==> registered[i].Describes(log[i]))
      && populationMarkers == MarkerScoped(registered)
      && populationObjects == NonMarkerScoped(registered)
      && ZonesValid()
    }

    /** `z` is the zone stored under its id. */
    ghost predicate Stored(z: BlackOutZone)
      reads this
    {
      z.id in blackOutZones && blackOutZones[z.id] == z
    }

    /** Zone ids are 1 .. blackOutId - 1, each stored under its own id, and an
        existing partition holds exactly the stored zones. */
    ghost predicate ZonesValid()
      reads this
    {
      && blackOutId >= 1
      && (forall k :: k in blackOutZones <==> 1 <= k < blackOutId)
      && (forall k :: k in blackOutZones ==> blackOutZones[k].id == k)
      && (blackOutPartition.Some? ==> forall z :: z in blackOutPartition.value.elements <==> Stored(z))
    }

    constructor (region: Region, db: GameDatabase, patrolRegions: set<PrototypeId>,
                 intersects: (BlackOutZone, Sphere) -> bool)
      ensures Valid()
      ensures this.region == region && this.db == db && this.patrolRegions == patrolRegions
      ensures this.intersects == intersects && randomSeed == region.randomSeed
      ensures populationMarkers == [] && populationObjects == [] && log == []
      ensures blackOutId == 1 && blackOutZones == map[] && blackOutPartition.None?
    {
      this.region, this.db, this.patrolRegions, this.intersects := region, db, patrolRegions, intersects;
      randomSeed := region.randomSeed;
      populationMarkers, populationObjects := [], [];
      blackOutZones := map[];
      blackOutId := 1;
      blackOutPartition := None;
      registered, log := [], [];
    }

    // ------------------------------------------------------------ registration

    /** Registers one request: into the marker list iff it names a marker, else
        into the non-marker list; the other list is untouched. */
    method AddPopulationObject(populationMarkerRef: PrototypeId, population: PopObjectProto, count: int,
                               restrictToAreas: seq<PrototypeId>, restrictToCellsRef: seq<PrototypeId>,
                               missionRef: PrototypeId)
      returns (o: PopulationObject)
      requires Valid()
      modifies this`populationMarkers, this`populationObjects, this`registered, this`log
      ensures Valid() && fresh(o)
      ensures o.count == count
      ensures o.Describes(NewRequest(populationMarkerRef, population, count, restrictToAreas, restrictToCellsRef, missionRef))
      ensures log == old(log) + [NewRequest(populationMarkerRef, population, count, restrictToAreas, restrictToCellsRef, missionRef)]
      ensures registered == old(registered) + [o]
      ensures populationMarkerRef != Invalid ==>
        populationMarkers == old(populationMarkers) + [o] && populationObjects == old(populationObjects)
      ensures populationMarkerRef == Invalid ==>
        populationObjects == old(populationObjects) + [o] && populationMarkers == old(populationMarkers)
    {
      var r := NewRequest(populationMarkerRef, population, count, restrictToAreas, restrictToCellsRef, missionRef);
      o := new PopulationObject(r);
      if populationMarkerRef != Invalid {
        populationMarkers := populationMarkers + [o];
      } else {
        populationObjects := populationObjects + [o];
      }
      registered := registered + [o];
      log := log + [r];
      assert registered[..|registered| - 1] == old(registered);
    }

    /** `Region.GetArea(areaRef) != null` for some of `areaRefs`. */
    method FindAreaInRegion(areaRefs: seq<PrototypeId>) returns (found: bool)
      ensures found <==> SomeAreaInRegion(region, areaRefs)
    {
      found := false;
      var i := 0;
      while i < |areaRefs|
        invariant 0 <= i <= |areaRefs|
        invariant forall j :: 0 <= j < i ==> !HasArea(region, areaRefs[j])
      {
        if HasArea(region, areaRefs[i]) {
          found := true;
          return;
        }
        i := i + 1;
      }
    }

    /** Every area of the region, in `IterateAreas` order. */
    method RegionAreaRefs() returns (refs: seq<PrototypeId>)
      ensures refs == AreaRefs(region.areas)
      ensures |refs| == |region.areas|
    {
      refs := [];
      for i := 0 to |region.areas|
        invariant refs == AreaRefs(region.areas[..i])
      {
        assert region.areas[..i + 1][..i] == region.areas[..i];
        refs := refs + [region.areas[i].prototypeDataRef];
      }
      assert region.areas[..|region.areas|] == region.areas;
    }

    /** The cells of the region whose area is not dynamic, in order. */
    method RegionNonDynamicCellRefs() returns (refs: seq<PrototypeId>)
      ensures refs == NonDynamicCellRefs(region.cells)
    {
      refs := [];
      for i := 0 to |region.cells|
        invariant refs == NonDynamicCellRefs(region.cells[..i])
      {
        assert region.cells[..i + 1][..i] == region.cells[..i];
        if !region.cells[i].area.isDynamic {
          refs := refs + [region.cells[i].prototypeId];
        }
      }
      assert region.cells[..|region.cells|] == region.cells;
    }

    /** Resolves cell assets to prototype refs; an empty (or null) array gives an
        empty list, otherwise length and order are kept. */
    static method AssetsToList(db: GameDatabase, assets: seq<AssetId>) returns (list: seq<PrototypeId>)
      ensures list == AssetRefs(db, assets)
      ensures |list| == |assets|
      ensures forall i :: 0 <= i < |assets| ==> list[i] == db.dataRefByAsset(assets[i])
    {
      if assets == [] {
        return [];
      }
      list := [];
      for i := 0 to |assets|
        invariant list == AssetRefs(db, assets[..i])
      {
        assert assets[..i + 1][..i] == assets[..i];
        list := list + [db.dataRefByAsset(assets[i])];
      }
      assert assets[..|assets|] == assets;
    }

    /** Registers the population spawns of a mission. */
    method MissionRegisty(missionProto: Option<MissionProto>) returns (ghost objs: seq<PopulationObject>)
      requires Valid()
      modifies this`populationMarkers, this`populationObjects, this`registered, this`log
      ensures Valid()
      ensures log == old(log) + MissionRequests(Ctx(), missionProto)
      ensures registered == old(registered) + objs && NewWithCounts(objs, MissionRequests(Ctx(), missionProto))
    {
      objs := [];
      if missionProto.None? {
        return;
      }
      var mission := missionProto.value;
      var spawns := mission.populationSpawns;
      ghost var log0, reg0 := log, registered;
      var i := 0;
      while i < |spawns|
        invariant 0 <= i <= |spawns|
        invariant Valid()
        invariant log == log0 + EntriesRequests(Ctx(), mission.dataRef, spawns[..i])
        invariant registered == reg0 + objs && NewWithCounts(objs, EntriesRequests(Ctx(), mission.dataRef, spawns[..i]))
      {
        EntriesRequestsStep(Ctx(), mission.dataRef, spawns, i);
        AppendAssoc(log0, EntriesRequests(Ctx(), mission.dataRef, spawns[..i]), EntryRequests(Ctx(), mission.dataRef, spawns[i]));
        var o := RegisterMissionEntry(spawns[i], mission.dataRef);
        NewWithCountsConcat(objs, EntriesRequests(Ctx(), mission.dataRef, spawns[..i]), o, EntryRequests(Ctx(), mission.dataRef, spawns[i]));
        AppendAssoc(reg0, objs, o);
        objs := objs + o;
        i := i + 1;
      }
      assert spawns[..i] == spawns;
    }

    /** One population entry of a mission (the body of `MissionRegisty`'s loop). */
    method RegisterMissionEntry(entry: MissionPopulationEntry, missionRef: PrototypeId)
      returns (ghost objs: seq<PopulationObject>)
      requires Valid()
      modifies this`populationMarkers, this`populationObjects, this`registered, this`log
      ensures Valid()
      ensures log == old(log) + EntryRequests(Ctx(), missionRef, entry)
      ensures registered == old(registered) + objs && NewWithCounts(objs, EntryRequests(Ctx(), missionRef, entry))
    {
      objs := [];
      if |entry.restrictToAreas| > 0 {
        var foundArea := FindAreaInRegion(entry.restrictToAreas);
        if foundArea {
          var regionAreas := entry.restrictToAreas;
          var cells := AssetsToList(db, entry.restrictToCells);
          var o := AddPopulationObject(entry.population.usePopulationMarker, entry.population, ToInt32(entry.count),
                                       regionAreas, cells, missionRef);
          objs := [o];
        }
      } else if |entry.restrictToRegions| > 0 {
        var regionAreas := RegionAreaRefs();
        var cells := AssetsToList(db, entry.restrictToCells);
        var o := AddPopulationObject(entry.population.usePopulationMarker, entry.population, ToInt32(entry.count),
                                     regionAreas, cells, missionRef);
        objs := [o];
      }
    }

    /** Registers a metastate's required population, recursing through its
        sub-states as the variant prescribes. */
    method MetaStateRegisty(ms: MetaState) returns (ghost added: seq<Request>, ghost objs: seq<PopulationObject>)
      requires Valid()
      modifies this`populationMarkers, this`populationObjects, this`registered, this`log
      ensures Valid()
      ensures log == old(log) + added
      ensures BlocksMatch(added, MetaStateBlocks(Ctx(), ms))
      ensures registered == old(registered) + objs && NewWithCounts(objs, added)
      decreases ms
    {
      added, objs := [], [];
      match ms
      case MissionProgression(_, states) =>
        if states != [] {
          added, objs := MetaStateRegisty(states[0]);
        }
      case MissionActivate(_, subStates, objs0, areas) =>
        var s, so := RegisterStates(subStates);
        var r, ro := AddRequiredObjects(objs0, areas, []);
        BlocksMatchConcat(s, r, StatesBlocks(Ctx(), subStates), [RequiredBlock(Ctx(), objs0, areas, [])]);
        AppendAssoc(old(log), s, r);
        AppendAssoc(old(registered), so, ro);
        NewWithCountsConcat(so, s, ro, r);
        added, objs := s + r, so + ro;
      case MissionSequencer(_, sequence) =>
        added, objs := RegisterSequence(sequence);
      case WaveInstance(_, states) =>
        added, objs := RegisterStates(states);
      case PopulationMaintain(dataRef, objs0, restrictToAreas, restrictToCells) =>
        if objs0 != [] {
          var areas := restrictToAreas;
          if dataRef == MoloidsMaintainRef && region.prototypeId == CH0402UpperEastRegion {
            areas := [];
          }
          added, objs := AddRequiredObjects(objs0, areas, restrictToCells);
        }
      case Unknown =>
    }

    /** Registers each state of `states` in turn. */
    method RegisterStates(states: seq<MetaState>) returns (ghost added: seq<Request>, ghost objs: seq<PopulationObject>)
      requires Valid()
      modifies this`populationMarkers, this`populationObjects, this`registered, this`log
      ensures Valid()
      ensures log == old(log) + added
      ensures BlocksMatch(added, StatesBlocks(Ctx(), states))
      ensures registered == old(registered) + objs && NewWithCounts(objs, added)
      decreases states
    {
      ghost var log0, reg0 := log, registered;
      added, objs := [], [];
      var i := 0;
      while i < |states|
        invariant 0 <= i <= |states|
        invariant Valid()
        invariant log == log0 + added
        invariant registered == reg0 + objs && NewWithCounts(objs, added)
        invariant BlocksMatch(added, StatesBlocks(Ctx(), states[..i]))
      {
        assert states[i] in states;
        var a, o := MetaStateRegisty(states[i]);
        NewWithCountsConcat(objs, added, o, a);
        StatesBlocksStep(Ctx(), states, i);
        BlocksMatchConcat(added, a, StatesBlocks(Ctx(), states[..i]), MetaStateBlocks(Ctx(), states[i]));
        AppendAssoc(log0, added, a);
        AppendAssoc(reg0, objs, o);
        added, objs := added + a, objs + o;
        i := i + 1;
      }
      assert states[..i] == states;
    }

    /** Registers the required objects of each sequencer entry in turn. */
    method RegisterSequence(sequence: seq<SequenceEntry>) returns (ghost added: seq<Request>, ghost objs: seq<PopulationObject>)
      requires Valid()
      modifies this`populationMarkers, this`populationObjects, this`registered, this`log
      ensures Valid()
      ensures log == old(log) + added
      ensures BlocksMatch(added, SequenceBlocks(Ctx(), sequence))
      ensures registered == old(registered) + objs && NewWithCounts(objs, added)
    {
      ghost var log0, reg0 := log, registered;
      added, objs := [], [];
      var i := 0;
      while i < |sequence|
        invariant 0 <= i <= |sequence|
        invariant Valid()
        invariant log == log0 + added
        invariant registered == reg0 + objs && NewWithCounts(objs, added)
        invariant BlocksMatch(added, SequenceBlocks(Ctx(), sequence[..i]))
      {
        var missionEntry := sequence[i];
        var a, o := AddRequiredObjects(missionEntry.populationObjects, missionEntry.populationAreaRestriction, []);
        NewWithCountsConcat(objs, added, o, a);
        SequenceBlocksStep(Ctx(), sequence, i);
        BlocksMatchConcat(added, a, SequenceBlocks(Ctx(), sequence[..i]),
                          [RequiredBlock(Ctx(), missionEntry.populationObjects, missionEntry.populationAreaRestriction, [])]);
        AppendAssoc(log0, added, a);
        AppendAssoc(reg0, objs, o);
        added, objs := added + a, objs + o;
        i := i + 1;
      }
      assert sequence[..i] == sequence;
    }

    /** Registers one request per required object, drawn without replacement:
        the new log entries are the block's requests in some order. */
    method AddRequiredObjects(populationObjects: seq<RequiredObject>, restrictToAreas: seq<PrototypeId>,
                              restrictToCells: seq<AssetId>)
      returns (ghost added: seq<Request>, ghost objs: seq<PopulationObject>)
      requires Valid()
      modifies this`populationMarkers, this`populationObjects, this`registered, this`log
      ensures Valid()
      ensures log == old(log) + added
      ensures BlocksMatch(added, [RequiredBlock(Ctx(), populationObjects, restrictToAreas, restrictToCells)])
      ensures registered == old(registered) + objs && NewWithCounts(objs, added)
      ensures Ctx().patrol ==> forall i :: 0 <= i < |objs| ==> objs[i].count == 1
    {
      var regionAreas: seq<PrototypeId>;
      var regionCell: seq<PrototypeId>;
      if restrictToAreas == [] {
        regionAreas := RegionAreaRefs();
        regionCell := RegionNonDynamicCellRefs();
      } else {
        regionAreas := restrictToAreas;
        regionCell := AssetsToList(db, restrictToCells);
      }
      assert regionAreas == RequiredAreas(Ctx(), restrictToAreas);
      assert regionCell == RequiredCells(Ctx(), restrictToAreas, restrictToCells);
      var popPicker: seq<RequiredObject> := [];
      for i := 0 to |populationObjects|
        invariant popPicker == populationObjects[..i]
      {
        popPicker := popPicker + [populationObjects[i]];
      }
      assert popPicker == populationObjects;
      added, objs := DrawRequired(popPicker, regionAreas, regionCell);
      if Ctx().patrol {
        PatrolCountsOne(Ctx(), popPicker, regionAreas, regionCell, added);
        assert HoldCounts(objs, added);
      }
      BlocksMatchSingle(added, RequiredRequests(Ctx(), populationObjects, regionAreas, regionCell));
    }

    /** Empties the picker one draw at a time, registering each drawn entry. */
    method DrawRequired(popPicker: seq<RequiredObject>, regionAreas: seq<PrototypeId>, regionCell: seq<PrototypeId>)
      returns (ghost added: seq<Request>, ghost objs: seq<PopulationObject>)
      requires Valid()
      modifies this`populationMarkers, this`populationObjects, this`registered, this`log
      ensures Valid()
      ensures log == old(log) + added
      ensures multiset(added) == multiset(RequiredRequests(Ctx(), popPicker, regionAreas, regionCell))
      ensures registered == old(registered) + objs && NewWithCounts(objs, added)
    {
      added, objs := [], [];
      ghost var log0, reg0 := log, registered;
      ghost var total := multiset(RequiredRequests(Ctx(), popPicker, regionAreas, regionCell));
      var picker := popPicker;
      while picker != []
        invariant Valid()
        invariant DrawnSoFar(picker, regionAreas, regionCell, added, log0, total)
        invariant registered == reg0 + objs && NewWithCounts(objs, added)
        decreases |picker|
      {
        var o;
        ghost var r;
        picker, r, o := DrawRequiredObject(picker, regionAreas, regionCell, added, log0, total, objs);
        NewWithCountsConcat(objs, added, [o], [r]);
        AppendAssoc(reg0, objs, [o]);
        added, objs := added + [r], objs + [o];
      }
    }

    /** `DrawRequired`'s loop invariant: `added` are logged after `log0`, and
        with the requests of the entries left in `picker` they make up `total`. */
    ghost predicate DrawnSoFar(picker: seq<RequiredObject>, regionAreas: seq<PrototypeId>, regionCell: seq<PrototypeId>,
                               added: seq<Request>, log0: seq<Request>, total: multiset<Request>)
      reads this
    {
      && log == log0 + added
      && multiset(added) + multiset(RequiredRequests(Ctx(), picker, regionAreas, regionCell)) == total
    }

    /** One turn of `DrawRequired`'s loop: `PickRemove` takes an entry out of
        the picker, and it is registered with count 1 in a patrol region and no
        mission. */
    method DrawRequiredObject(picker: seq<RequiredObject>, regionAreas: seq<PrototypeId>, regionCell: seq<PrototypeId>,
                              ghost added: seq<Request>, ghost log0: seq<Request>, ghost total: multiset<Request>,
                              ghost prev: seq<PopulationObject>)
      returns (rest: seq<RequiredObject>, ghost r: Request, o: PopulationObject)
      requires Valid() && picker != []
      requires DrawnSoFar(picker, regionAreas, regionCell, added, log0, total)
      modifies this`populationMarkers, this`populationObjects, this`registered, this`log
      ensures Valid()
      ensures |rest| == |picker| - 1
      ensures DrawnSoFar(rest, regionAreas, regionCell, added + [r], log0, total)
      ensures registered == old(registered) + [o] && NewWithCounts([o], [r])
      ensures HoldCounts(prev, added) == old(HoldCounts(prev, added))
    {
      var k :| 0 <= k < |picker|;
      var popObject := picker[k];
      DrawStep(Ctx(), added, picker, k, regionAreas, regionCell, total);
      rest := picker[..k] + picker[k + 1..];
      r := RequiredRequest(Ctx(), popObject, regionAreas, regionCell);
      AppendAssoc(log0, added, [r]);
      var count := popObject.count;
      if region.prototypeId in patrolRegions {
        count := 1;
      }
      var objectProto := popObject.popObject;
      o := AddPopulationObject(objectProto.usePopulationMarker, objectProto, count, regionAreas, regionCell, Invalid);
      assert [o][0] == o;
    }

    // ---------------------------------------------------------- black-out zones

    method NextBlackOutId() returns (id: int)
      modifies this`blackOutId
      ensures id == old(blackOutId) && blackOutId == old(blackOutId) + 1
    {
      id := blackOutId;
      blackOutId := blackOutId + 1;
    }

    /** Creates a zone under the next id and inserts it into the partition, which
        must already exist (the insertion is unconditional). */
    method SpawnBlackOutZone(position: Vector3, radius: real, missionRef: PrototypeId) returns (id: int)
      requires Valid() && blackOutPartition.Some?
      modifies this`blackOutId, this`blackOutZones, this`blackOutPartition
      ensures Valid()
      ensures id == old(blackOutId) && blackOutId == id + 1 && id >= 1
      ensures id !in old(blackOutZones)
      ensures blackOutZones == old(blackOutZones)[id := BlackOutZone(id, position, radius, missionRef)]
      ensures blackOutPartition.Some? && blackOutPartition.value.bound == old(blackOutPartition).value.bound
      ensures blackOutPartition.value.elements ==
              old(blackOutPartition).value.elements + {BlackOutZone(id, position, radius, missionRef)}
    {
      id := NextBlackOutId();
      var zone := BlackOutZone(id, position, radius, missionRef);
      blackOutZones := blackOutZones[id := zone];
      var partition := blackOutPartition.value;
      blackOutPartition := Some(partition.(elements := partition.elements + {zone}));
    }

    /** The zones whose volume meets `bound`; none while there is no partition. */
    function IterateBlackOutZoneInVolume(bound: Sphere): (zones: set<BlackOutZone>)
      reads this
      ensures blackOutPartition.None? ==> zones == {}
      ensures Valid() && blackOutPartition.Some? ==>
        forall z :: z in zones <==> Stored(z) && intersects(z, bound)
    {
      if blackOutPartition.Some? then set z | z in blackOutPartition.value.elements && intersects(z, bound) else {}
    }

    /** Builds the partition once, inserting every zone created so far; later calls do nothing. */
    method InitializeSpacialPartition(bound: Aabb)
      requires Valid()
      modifies this`blackOutPartition
      ensures Valid()
      ensures old(blackOutPartition).Some? ==> blackOutPartition == old(blackOutPartition)
      ensures old(blackOutPartition).None? ==>
        blackOutPartition.Some? && blackOutPartition.value.bound == bound
        && forall z :: z in blackOutPartition.value.elements <==> Stored(z)
    {
      if blackOutPartition.Some? {
        return;
      }
      blackOutPartition := Some(BlackOutPartition(bound, {}));
      var keys := blackOutZones.Keys;
      while keys != {}
        invariant keys <= blackOutZones.Keys
        invariant blackOutPartition.Some? && blackOutPartition.value.bound == bound
        invariant forall z :: z in blackOutPartition.value.elements <==> Stored(z) && z.id !in keys
        decreases keys
      {
        ghost var someKey := SomeMember(keys);
        var k :| k in keys;
        var zone := blackOutZones[k];
        var partition := blackOutPartition.value;
        blackOutPartition := Some(partition.(elements := partition.elements + {zone}));
        keys := keys - {k};
      }
    }

    /** With a mission: true iff every zone meeting the sphere belongs to that
        mission (so true when none does). Without one: true iff some zone meets it. */
    method InBlackOutZone(position: Vector3, radius: real, missionRef: PrototypeId) returns (inZone: bool)
      ensures missionRef != Invalid ==>
        (inZone <==> forall z :: z in IterateBlackOutZoneInVolume(Sphere(position, radius)) ==> z.missionRef == missionRef)
      ensures missionRef == Invalid ==>
        (inZone <==> IterateBlackOutZoneInVolume(Sphere(position, radius)) != {})
    {
      var sphere := Sphere(position, radius);
      if missionRef != Invalid {
        var zones := IterateBlackOutZoneInVolume(sphere);
        var rest := zones;
        while rest != {}
          invariant rest <= zones
          invariant forall z :: z in zones && z !in rest ==> z.missionRef == missionRef
          decreases rest
        {
          ghost var someZone := SomeMember(rest);
          var zone :| zone in rest;
          if zone.missionRef != missionRef {
            return false;
          }
          rest := rest - {zone};
        }
      } else if IterateBlackOutZoneInVolume(sphere) == {} {
        return false;
      }
      return true;
    }
  }
}
