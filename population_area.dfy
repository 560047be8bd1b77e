/** The population pass of one area: ambient enemies against a density budget,
    then one representative encounter per spawn-marker type. */
module PopulationAreas {
  import opened PopulationData
  import opened SpawnMarkers
  import opened Encounters
  import opened PopulationManagement

  class PopulationArea {
    const area: AreaInfo
    const populationRef: PrototypeId
    /** `Area.Region.PopulationManager`. */
    const manager: PopulationManager
    /** `Area.Region.SpawnMarkerRegistry`. */
    const registry: SpawnMarkerRegistry

    constructor (area: AreaInfo, populationRef: PrototypeId, manager: PopulationManager, registry: SpawnMarkerRegistry)
      ensures this.area == area && this.populationRef == populationRef
      ensures this.manager == manager && this.registry == registry
    {
      this.area, this.populationRef, this.manager, this.registry := area, populationRef, manager, registry;
    }

    /** What one `Spawn` pass over `pop` does to the manager's log and the
        registry's free-slot queries, given its ambient draws and marker requests. */
    ghost predicate SpawnOutcome(pop: PopulationProto, n: nat,
                                 oldLog: seq<Request>, newLog: seq<Request>,
                                 oldQueries: seq<(PrototypeId, PrototypeId)>, newQueries: seq<(PrototypeId, PrototypeId)>,
                                 drawn: seq<PopObjectProto>, picked: seq<Request>)
      requires SpawnReady(manager.db, pop)
    {
      if SpawnSkipped(pop) then newLog == oldLog && newQueries == oldQueries
      else
        var theme := manager.db.themes[pop.themes[0]];
        var encs := SpawnEncounters(pop, theme);
        var keys := DistinctMarkers(encs);
        var areaRef := area.prototypeDataRef;
        && AmbientDraws(PickerEntries(theme.enemies), InitialDensity(area.spawnableNavArea, pop.clusterDensityPct), drawn)
        && newQueries == oldQueries + SlotQueries(keys, areaRef)
        && newLog == oldLog + AmbientRequests(areaRef, drawn) + picked
        && MarkerRegistrations(picked, keys, Grouped(encs, registry.freeSlots, n, areaRef, pop.encounterDensity), [areaRef])
    }

    /** Runs the pass when the population prototype exists and the area has a
        positive playable and spawnable navigation area; otherwise does nothing. */
    method Generate()
      returns (ghost drawn: seq<PopObjectProto>, ghost picked: seq<Request>,
               ghost added: seq<Request>, ghost objs: seq<PopulationObject>)
      requires manager.Valid()
      requires populationRef in manager.db.populations && area.playableNavArea > 0.0 && area.spawnableNavArea > 0.0 ==>
        SpawnReady(manager.db, manager.db.populations[populationRef])
      modifies manager`populationMarkers, manager`populationObjects, manager`registered, manager`log, registry
      ensures manager.Valid()
      ensures manager.log == old(manager.log) + added
      ensures manager.registered == old(manager.registered) + objs && NewWithCounts(objs, added)
      ensures registry.reservationRequests == old(registry.reservationRequests)
      ensures registry.assignments == old(registry.assignments)
      ensures populationRef !in manager.db.populations || area.playableNavArea <= 0.0 || area.spawnableNavArea <= 0.0 ==>
        manager.log == old(manager.log) && registry.slotQueries == old(registry.slotQueries)
      ensures populationRef in manager.db.populations && area.playableNavArea > 0.0 && area.spawnableNavArea > 0.0 ==>
        SpawnOutcome(manager.db.populations[populationRef], |registry.reservationRequests|,
                     old(manager.log), manager.log, old(registry.slotQueries), registry.slotQueries, drawn, picked)
    {
      drawn, picked, added, objs := [], [], [], [];
      if populationRef !in manager.db.populations || area.playableNavArea <= 0.0 {
        return;
      }
      var populationProto := manager.db.populations[populationRef];
      if area.spawnableNavArea > 0.0 {
        drawn, picked, added, objs := Spawn(populationProto);
      }
    }

    method Spawn(populationProto: PopulationProto)
      returns (ghost drawn: seq<PopObjectProto>, ghost picked: seq<Request>,
               ghost added: seq<Request>, ghost objs: seq<PopulationObject>)
      requires manager.Valid() && SpawnReady(manager.db, populationProto)
      modifies manager`populationMarkers, manager`populationObjects, manager`registered, manager`log, registry
      ensures manager.Valid()
      ensures manager.log == old(manager.log) + added
      ensures manager.registered == old(manager.registered) + objs && NewWithCounts(objs, added)
      ensures registry.reservationRequests == old(registry.reservationRequests)
      ensures registry.assignments == old(registry.assignments)
      ensures SpawnOutcome(populationProto, |registry.reservationRequests|,
                           old(manager.log), manager.log, old(registry.slotQueries), registry.slotQueries, drawn, picked)
    {
      drawn, picked, added, objs := [], [], [], [];
      if populationProto.spawnMapEnabled
         || (populationProto.spawnMapDensityMin > 0.0 && populationProto.spawnMapDensityMax > 0.0) {
        return;
      }
      if populationProto.themes == [] {
        return;
      }
      assert !SpawnSkipped(populationProto);
      var themeProto := manager.db.themes[populationProto.themes[0]];
      drawn, picked, objs := SpawnFromTheme(populationProto, themeProto);
      added := AmbientRequests(area.prototypeDataRef, drawn) + picked;
      AppendAssoc(old(manager.log), AmbientRequests(area.prototypeDataRef, drawn), picked);
    }

    /** `Spawn` once its first theme is resolved: the ambient loop against the
        density budget, then the marker pass. */
    method SpawnFromTheme(populationProto: PopulationProto, themeProto: ThemeProto)
      returns (ghost drawn: seq<PopObjectProto>, ghost picked: seq<Request>, ghost objs: seq<PopulationObject>)
      requires manager.Valid()
      requires forall i :: 0 <= i < |themeProto.enemies| ==> SizedEnemy(themeProto.enemies[i])
      modifies manager`populationMarkers, manager`populationObjects, manager`registered, manager`log, registry
      ensures manager.Valid()
      ensures manager.registered == old(manager.registered) + objs
      ensures NewWithCounts(objs, AmbientRequests(area.prototypeDataRef, drawn) + picked)
      ensures registry.reservationRequests == old(registry.reservationRequests)
      ensures registry.assignments == old(registry.assignments)
      ensures AmbientDraws(PickerEntries(themeProto.enemies),
                           InitialDensity(area.spawnableNavArea, populationProto.clusterDensityPct), drawn)
      ensures manager.log == old(manager.log) + AmbientRequests(area.prototypeDataRef, drawn) + picked
      ensures var encs := SpawnEncounters(populationProto, themeProto);
        && registry.slotQueries == old(registry.slotQueries) + SlotQueries(DistinctMarkers(encs), area.prototypeDataRef)
        && MarkerRegistrations(picked, DistinctMarkers(encs),
                               Grouped(encs, registry.freeSlots, |registry.reservationRequests|,
                                       area.prototypeDataRef, populationProto.encounterDensity), [area.prototypeDataRef])
    {
      var spawnableNavArea := area.spawnableNavArea;
      var areas := [area.prototypeDataRef];
      var cells: seq<PrototypeId> := [];

      var density := spawnableNavArea / PopulationClusterSq * (populationProto.clusterDensityPct / 100.0);
      var picker := PopulatePicker(themeProto.enemies);
      PickerSizesPositive(themeProto.enemies);
      assert density == InitialDensity(area.spawnableNavArea, populationProto.clusterDensityPct);
      ghost var log0, queries0, reg0 := manager.log, registry.slotQueries, manager.registered;
      ghost var ambient;
      drawn, ambient := SpawnAmbient(picker, density, areas, cells);
      ghost var log1 := manager.log;
      assert log1 == log0 + AmbientRequests(area.prototypeDataRef, drawn);
      assert registry.slotQueries == queries0;
      ghost var marked;
      picked, marked := SpawnMarkerPass(populationProto, themeProto, areas, cells);
      assert manager.log == log1 + picked;
      NewWithCountsConcat(ambient, AmbientRequests(area.prototypeDataRef, drawn), marked, picked);
      AppendAssoc(reg0, ambient, marked);
      objs := ambient + marked;
    }

    /** The encounter half of `Spawn`: collects the encounters, groups them by
        marker type and registers one marker request per type with a picker. */
    method SpawnMarkerPass(populationProto: PopulationProto, themeProto: ThemeProto,
                           areas: seq<PrototypeId>, cells: seq<PrototypeId>)
      returns (ghost picked: seq<Request>, ghost objs: seq<PopulationObject>)
      requires manager.Valid()
      requires areas == [area.prototypeDataRef] && cells == []
      modifies manager`populationMarkers, manager`populationObjects, manager`registered, manager`log, registry
      ensures manager.Valid()
      ensures manager.registered == old(manager.registered) + objs && NewWithCounts(objs, picked)
      ensures registry.reservationRequests == old(registry.reservationRequests)
      ensures registry.assignments == old(registry.assignments)
      ensures var encs := SpawnEncounters(populationProto, themeProto);
        && registry.slotQueries == old(registry.slotQueries) + SlotQueries(DistinctMarkers(encs), area.prototypeDataRef)
        && manager.log == old(manager.log) + picked
        && MarkerRegistrations(picked, DistinctMarkers(encs),
                               Grouped(encs, registry.freeSlots, |registry.reservationRequests|,
                                       area.prototypeDataRef, populationProto.encounterDensity), areas)
    {
      var encounters: seq<Instance> := [];
      if populationProto.globalEncounters.Some? {
        encounters := GetContainedEncounters(populationProto.globalEncounters.value, encounters);
      }
      if themeProto.encounters.Some? {
        encounters := GetContainedEncounters(themeProto.encounters.value, encounters);
      }
      assert encounters == SpawnEncounters(populationProto, themeProto);
      SpawnEncountersAreEncounters(populationProto, themeProto);

      var keys, markerPicker := GroupEncounters(encounters, populationProto);
      forall m | m in keys && markerPicker[m].picker.Some?
        ensures markerPicker[m].picker.value != []
      {
        CandidatesForListed(encounters, m);
      }
      picked, objs := RegisterMarkerPicks(keys, markerPicker, areas, cells);
    }

    /** The ambient loop: draws (with replacement) while budget remains, one
        non-marker request of count 1 per draw. */
    method SpawnAmbient(picker: seq<Candidate>, budget: real, areas: seq<PrototypeId>, cells: seq<PrototypeId>)
      returns (ghost drawn: seq<PopObjectProto>, ghost objs: seq<PopulationObject>)
      requires manager.Valid()
      requires areas == [area.prototypeDataRef] && cells == []
      requires forall c :: c in picker ==> c.item.averageSize > 0.0
      modifies manager`populationMarkers, manager`populationObjects, manager`registered, manager`log
      ensures manager.Valid()
      ensures manager.registered == old(manager.registered) + objs
      ensures NewWithCounts(objs, AmbientRequests(area.prototypeDataRef, drawn))
      ensures manager.log == old(manager.log) + AmbientRequests(area.prototypeDataRef, drawn)
      ensures AmbientDraws(picker, budget, drawn)
    {
      drawn, objs := [], [];
      ghost var log0, reg0 := manager.log, manager.registered;
      var density := budget;
      ghost var minSize, bound := 1.0, 0;
      if picker != [] {
        assert forall i :: 0 <= i < |picker| ==> picker[i] in picker;
        minSize := MinSize(picker);
        bound := DrawBound(budget, minSize);
      }
      while density > 0.0 && picker != []
        invariant manager.Valid()
        invariant minSize > 0.0
        invariant picker != [] ==> bound == DrawBound(budget, minSize)
        invariant forall i :: 0 <= i < |picker| ==> minSize <= picker[i].item.averageSize
        invariant AmbientSoFar(picker, budget, density, drawn, minSize, log0)
        invariant manager.registered == reg0 + objs && NewWithCounts(objs, AmbientRequests(area.prototypeDataRef, drawn))
        decreases bound - |drawn|
      {
        DrawsBounded(drawn, budget, minSize);
        ghost var before := drawn;
        var o;
        ghost var r;
        density, drawn, r, o := DrawAmbient(picker, budget, density, drawn, minSize, log0, areas, cells,
                                            objs, AmbientRequests(area.prototypeDataRef, before));
        NewWithCountsConcat(objs, AmbientRequests(area.prototypeDataRef, before), [o], [r]);
        AppendAssoc(reg0, objs, [o]);
        objs := objs + [o];
      }
    }

    /** The ambient loop's invariant: `drawn` so far, each registered, each at
        least `minSize` large, and `density` the budget they leave. */
    ghost predicate AmbientSoFar(picker: seq<Candidate>, budget: real, density: real, drawn: seq<PopObjectProto>,
                                 minSize: real, log0: seq<Request>)
      reads manager
    {
      && (forall j :: 0 <= j < |drawn| ==> minSize <= drawn[j].averageSize)
      && density == budget - SumSizes(drawn)
      && manager.log == log0 + AmbientRequests(area.prototypeDataRef, drawn)
      && AmbientPrefix(picker, budget, drawn)
    }

    /** One turn of the ambient loop: draw an object, charge its size to the
        budget and register it. */
    method DrawAmbient(picker: seq<Candidate>, budget: real, density: real, ghost drawn: seq<PopObjectProto>,
                       ghost minSize: real, ghost log0: seq<Request>, areas: seq<PrototypeId>, cells: seq<PrototypeId>,
                       ghost prev: seq<PopulationObject>, ghost prevReqs: seq<Request>)
      returns (newDensity: real, ghost newDrawn: seq<PopObjectProto>, ghost r: Request, o: PopulationObject)
      requires manager.Valid()
      requires areas == [area.prototypeDataRef] && cells == []
      requires density > 0.0 && picker != []
      requires forall i :: 0 <= i < |picker| ==> minSize <= picker[i].item.averageSize
      requires AmbientSoFar(picker, budget, density, drawn, minSize, log0)
      modifies manager`populationMarkers, manager`populationObjects, manager`registered, manager`log
      ensures manager.Valid()
      ensures |newDrawn| == |drawn| + 1
      ensures AmbientSoFar(picker, budget, newDensity, newDrawn, minSize, log0)
      ensures AmbientRequests(area.prototypeDataRef, newDrawn) == AmbientRequests(area.prototypeDataRef, drawn) + [r]
      ensures manager.registered == old(manager.registered) + [o] && NewWithCounts([o], [r])
      ensures HoldCounts(prev, prevReqs) == old(HoldCounts(prev, prevReqs))
    {
      var k :| 0 <= k < |picker|;
      var objectProto := picker[k].item;
      AmbientStep(picker, budget, drawn, k, area.prototypeDataRef);
      AppendAssoc(log0, AmbientRequests(area.prototypeDataRef, drawn), [AmbientRequest(area.prototypeDataRef, objectProto)]);
      newDensity := density - objectProto.averageSize;
      r := AmbientRequest(area.prototypeDataRef, objectProto);
      o := manager.AddPopulationObject(Invalid, objectProto, 1, areas, cells, Invalid);
      newDrawn := drawn + [objectProto];
      assert [o][0] == o;
    }

    /** Groups the encounters by marker type: the first encounter of a type asks
        the registry for its free slots and creates the type's picker (none when
        there is no free slot); every encounter then joins its type's picker if
        that has a positive count. `keys` lists the types in insertion order. */
    method GroupEncounters(encounters: seq<Instance>, populationProto: PopulationProto)
      returns (keys: seq<PrototypeId>, markerPicker: map<PrototypeId, SpawnPicker>)
      requires forall i :: 0 <= i < |encounters| ==> IsEncounter(encounters[i])
      modifies registry
      ensures keys == DistinctMarkers(encounters)
      ensures markerPicker == Grouped(encounters, registry.freeSlots, |registry.reservationRequests|,
                                      area.prototypeDataRef, populationProto.encounterDensity)
      ensures registry.slotQueries == old(registry.slotQueries) + SlotQueries(keys, area.prototypeDataRef)
      ensures registry.reservationRequests == old(registry.reservationRequests)
      ensures registry.assignments == old(registry.assignments)
    {
      keys := [];
      markerPicker := map[];
      ghost var n := |registry.reservationRequests|;
      ghost var queries0, requests0, assignments0 := registry.slotQueries, registry.reservationRequests, registry.assignments;
      ghost var freeSlots, areaRef, density := registry.freeSlots, area.prototypeDataRef, populationProto.encounterDensity;
      for i := 0 to |encounters|
        invariant registry.reservationRequests == requests0
        invariant registry.assignments == assignments0
        invariant keys == DistinctMarkers(encounters[..i])
        invariant markerPicker == Grouped(encounters[..i], freeSlots, n, areaRef, density)
        invariant registry.slotQueries == queries0 + SlotQueries(keys, areaRef)
      {
        var encounter := encounters[i];
        var objectProto := encounter.target.proto;
        var markerRef := objectProto.usePopulationMarker;
        GroupedStep(encounters, i, freeSlots, n, areaRef, density);
        assert markerRef == MarkerOf(encounter);
        ghost var base := if markerRef in markerPicker then markerPicker[markerRef]
                          else GroupedPicker(freeSlots(n, markerRef, areaRef), density(markerRef), []);
        var spawnPicker: SpawnPicker;
        if markerRef in markerPicker {
          spawnPicker := markerPicker[markerRef];
        } else {
          spawnPicker := NewSpawnPicker(markerRef, populationProto);
          SlotQueriesAppend(queries0, keys, markerRef, areaRef);
          keys := keys + [markerRef];
        }
        assert spawnPicker == base;
        spawnPicker := JoinPicker(spawnPicker, encounter);
        markerPicker := markerPicker[markerRef := spawnPicker];
      }
      assert encounters[..|encounters|] == encounters;
    }

    /** `spawnPicker.Picker.Add(objectProto, weight)` when the count is positive. */
    static method JoinPicker(spawnPicker: SpawnPicker, encounter: Instance) returns (joined: SpawnPicker)
      requires spawnPicker.count > 0 ==> spawnPicker.picker.Some?
      requires encounter.target.PopObject?
      ensures joined == Joined(spawnPicker, encounter)
    {
      joined := spawnPicker;
      if spawnPicker.count > 0 {
        joined := spawnPicker.(picker := Some(spawnPicker.picker.value + [Candidate(encounter.target.proto, encounter.weight)]));
      }
    }

    /** A marker type's picker when its first encounter is seen: the registry's
        free slots for the type in this area decide whether there is one and its count. */
    method NewSpawnPicker(markerRef: PrototypeId, populationProto: PopulationProto) returns (spawnPicker: SpawnPicker)
      modifies registry
      ensures spawnPicker == GroupedPicker(registry.freeSlots(|registry.reservationRequests|, markerRef, area.prototypeDataRef),
                                           populationProto.encounterDensity(markerRef), [])
      ensures registry.slotQueries == old(registry.slotQueries) + [(markerRef, area.prototypeDataRef)]
      ensures registry.reservationRequests == old(registry.reservationRequests)
      ensures registry.assignments == old(registry.assignments)
    {
      var slots := registry.CalcFreeReservation(markerRef, area.prototypeDataRef);
      if slots == 0 {
        spawnPicker := SpawnPicker(None, 0);
      } else {
        var dencity := populationProto.encounterDensity(markerRef) / 100.0;
        var truncated := TruncToInt(slots as real * dencity);
        var count := if truncated > 1 then truncated else 1;
        spawnPicker := SpawnPicker(Some([]), count);
      }
    }

    /** The marker pass: for each type, in insertion order, one request built
        from a draw of its picker; types without a picker are skipped. */
    method RegisterMarkerPicks(keys: seq<PrototypeId>, markerPicker: map<PrototypeId, SpawnPicker>,
                               areas: seq<PrototypeId>, cells: seq<PrototypeId>)
      returns (ghost picked: seq<Request>, ghost objs: seq<PopulationObject>)
      requires manager.Valid()
      requires cells == []
      requires forall m :: m in keys ==> m in markerPicker
      requires forall m :: m in keys && markerPicker[m].picker.Some? ==> markerPicker[m].picker.value != []
      modifies manager`populationMarkers, manager`populationObjects, manager`registered, manager`log
      ensures manager.Valid()
      ensures manager.log == old(manager.log) + picked
      ensures manager.registered == old(manager.registered) + objs && NewWithCounts(objs, picked)
      ensures MarkerRegistrations(picked, keys, markerPicker, areas)
    {
      picked, objs := [], [];
      ghost var log0, reg0 := manager.log, manager.registered;
      for i := 0 to |keys|
        invariant manager.Valid()
        invariant manager.log == log0 + picked
        invariant manager.registered == reg0 + objs && NewWithCounts(objs, picked)
        invariant MarkerRegistrations(picked, keys[..i], markerPicker, areas)
      {
        var markerRef := keys[i];
        var spawnPicker := markerPicker[markerRef];
        assert keys[..i + 1][..i] == keys[..i];
        if spawnPicker.picker.None? {
          continue;
        }
        ghost var r;
        var o;
        r, o := RegisterMarkerPick(markerRef, spawnPicker, areas, cells, objs, picked);
        ghost var before := picked;
        NewWithCountsConcat(objs, picked, [o], [r]);
        AppendAssoc(log0, picked, [r]);
        AppendAssoc(reg0, objs, [o]);
        picked, objs := picked + [r], objs + [o];
        assert picked[..|picked| - 1] == before;
      }
      assert keys[..|keys|] == keys;
    }

    /** One turn of the marker pass: a draw of the type's picker, registered
        with the picker's count against the type's marker. */
    method RegisterMarkerPick(markerRef: PrototypeId, spawnPicker: SpawnPicker, areas: seq<PrototypeId>, cells: seq<PrototypeId>,
                              ghost prev: seq<PopulationObject>, ghost prevReqs: seq<Request>)
      returns (ghost r: Request, o: PopulationObject)
      requires manager.Valid()
      requires cells == []
      requires spawnPicker.picker.Some? && spawnPicker.picker.value != []
      modifies manager`populationMarkers, manager`populationObjects, manager`registered, manager`log
      ensures manager.Valid()
      ensures MarkerRequest(r, markerRef, spawnPicker, areas)
      ensures manager.log == old(manager.log) + [r]
      ensures manager.registered == old(manager.registered) + [o] && NewWithCounts([o], [r])
      ensures HoldCounts(prev, prevReqs) == old(HoldCounts(prev, prevReqs))
    {
      var k :| 0 <= k < |spawnPicker.picker.value|;
      var objectProto := spawnPicker.picker.value[k].item;
      assert Items(spawnPicker.picker.value)[k] == objectProto;
      r := NewRequest(markerRef, objectProto, spawnPicker.count, areas, cells, Invalid);
      o := manager.AddPopulationObject(markerRef, objectProto, spawnPicker.count, areas, cells, Invalid);
      assert [o][0] == o;
    }

    /** Appends the encounters contained in `objectList` (depth first) to `encounters`. */
    static method GetContainedEncounters(objectList: PopulationObjectList, encounters: seq<Instance>)
      returns (r: seq<Instance>)
      ensures r == encounters + Contained(objectList, 0)
      decreases objectList
    {
      r := encounters;
      var i := 0;
      while i < |objectList.list|
        invariant 0 <= i <= |objectList.list|
        invariant r + Contained(objectList, i) == encounters + Contained(objectList, 0)
      {
        var objectInstance := objectList.list[i];
        if objectInstance.Some? && objectInstance.value.weight > 0 {
          match objectInstance.value.target
          case PopObject(_) =>
            r := r + [objectInstance.value];
          case ObjectList(nested) =>
            r := GetContainedEncounters(nested, r);
          case NotPopulation =>
        }
        i := i + 1;
      }
    }

    /** Fills a picker from a list of weighted objects. */
    static method PopulatePicker(objectList: seq<Instance>) returns (picker: seq<Candidate>)
      ensures picker == PickerEntries(objectList)
    {
      picker := [];
      for i := 0 to |objectList|
        invariant picker == PickerEntries(objectList[..i])
      {
        assert objectList[..i + 1][..i] == objectList[..i];
        var objectInstance := objectList[i];
        var objectProto := AsPopObject(objectInstance.target);
        if objectProto.None? {
          continue;
        }
        var weight := objectInstance.weight;
        picker := picker + [Candidate(objectProto.value, weight)];
      }
      assert objectList[..|objectList|] == objectList;
    }
  }
}
