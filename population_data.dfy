/** Data model shared by the population engine: prototype references, the
    read-only prototype records the engine consumes, the region/area/cell view
    it reads, and the value form of a spawn request. */
module PopulationData {

  datatype Option<+T> = None | Some(value: T)

  /** A prototype reference; 0 is `PrototypeId.Invalid`. */
  type PrototypeId = nat
  const Invalid: PrototypeId := 0

  /** An asset reference, resolved to a prototype through the database. */
  type AssetId = nat

  /** `SpawnFlags` is a flag set; the engine only ever writes `SpawnFlags.None`. */
  type SpawnFlags = nat
  const SpawnFlagsNone: SpawnFlags := 0

  /** The region prototype `RegionPrototypeId.CH0402UpperEastRegion`. Its numeric
      value lives in an enum that is not part of this model, so it is left open. */
  const CH0402UpperEastRegion: PrototypeId

  /** The metastate prototype singled out by the "Moloids" override. */
  const MoloidsMaintainRef: PrototypeId := 7730041682554854878

  /** Side of one average population cluster, squared (60 * 60). */
  const PopulationClusterSq: real := 3600.0

  datatype Vector3 = Vector3(x: real, y: real, z: real)
  datatype Orientation = Orientation(yaw: real, pitch: real, roll: real)
  datatype Sphere = Sphere(center: Vector3, radius: real)
  datatype Aabb = Aabb(min: Vector3, max: Vector3)

  /** A leaf `PopulationObjectPrototype`: what gets spawned. `averageSize` is what
      `GetAverageSize()` answers for it. */
  datatype PopObjectProto = PopObjectProto(dataRef: PrototypeId, usePopulationMarker: PrototypeId, averageSize: real)

  /** A `PopulationObjectInstancePrototype`: a weighted reference to an object.
      `target` is what the prototype lookup of the reference yields. */
  datatype Instance = Instance(target: Target, weight: int)

  datatype Target =
    | PopObject(proto: PopObjectProto)     // a leaf PopulationObjectPrototype
    | ObjectList(list: PopulationObjectList) // a PopulationObjectListPrototype
    | NotPopulation                        // missing, or some other prototype class

  /** A `PopulationObjectListPrototype`; entries may be null. */
  datatype PopulationObjectList = PopulationObjectList(list: seq<Option<Instance>>)

  /** The prototype lookup `GetPrototype<PopulationObjectPrototype>(ref)`. */
  function AsPopObject(t: Target): (r: Option<PopObjectProto>)
    ensures r.Some? <==> t.PopObject?
  {
    if t.PopObject? then Some(t.proto) else None
  }

  /** A `PopulationRequiredObjectPrototype`: `popObject` is what `GetPopObject()` resolves. */
  datatype RequiredObject = RequiredObject(popObject: PopObjectProto, count: int)

  /** A mission's population entry; `count` is the declared 64-bit count. */
  datatype MissionPopulationEntry = MissionPopulationEntry(
    population: PopObjectProto,
    count: int,
    restrictToAreas: seq<PrototypeId>,
    restrictToRegions: seq<PrototypeId>,
    restrictToCells: seq<AssetId>)

  datatype MissionProto = MissionProto(dataRef: PrototypeId, populationSpawns: seq<MissionPopulationEntry>)

  /** One entry of a mission sequencer. */
  datatype SequenceEntry = SequenceEntry(populationObjects: seq<RequiredObject>, populationAreaRestriction: seq<PrototypeId>)

  /** The closed set of metastate variants the engine dispatches on. Child states
      are given already resolved, so the graph is a tree. `Unknown` stands for a
      reference that does not resolve or resolves to any other metastate class. */
  datatype MetaState =
    | MissionProgression(dataRef: PrototypeId, statesProgression: seq<MetaState>)
    | MissionActivate(dataRef: PrototypeId, subStates: seq<MetaState>,
                      populationObjects: seq<RequiredObject>, populationAreaRestriction: seq<PrototypeId>)
    | MissionSequencer(dataRef: PrototypeId, sequence: seq<SequenceEntry>)
    | WaveInstance(dataRef: PrototypeId, states: seq<MetaState>)
    | PopulationMaintain(dataRef: PrototypeId, populationObjects: seq<RequiredObject>,
                         restrictToAreas: seq<PrototypeId>, restrictToCells: seq<AssetId>)
    | Unknown

  datatype ThemeProto = ThemeProto(enemies: seq<Instance>, encounters: Option<PopulationObjectList>)

  /** A `PopulationPrototype`. `themes` lists the theme references of `Themes.List`;
      `encounterDensity` is what `GetEncounterDensity(markerRef)` answers. */
  datatype PopulationProto = PopulationProto(
    spawnMapEnabled: bool,
    spawnMapDensityMin: real,
    spawnMapDensityMax: real,
    themes: seq<PrototypeId>,
    clusterDensityPct: real,
    globalEncounters: Option<PopulationObjectList>,
    encounterDensity: PrototypeId -> real)

  /** The read-only prototype store, injected. */
  datatype GameDatabase = GameDatabase(
    populations: map<PrototypeId, PopulationProto>,
    themes: map<PrototypeId, ThemeProto>,
    dataRefByAsset: AssetId -> PrototypeId)

  datatype AreaInfo = AreaInfo(prototypeDataRef: PrototypeId, isDynamic: bool,
                               playableNavArea: real, spawnableNavArea: real)
  datatype CellInfo = CellInfo(prototypeId: PrototypeId, area: AreaInfo)

  /** The part of a region the engine reads. */
  datatype Region = Region(prototypeId: PrototypeId, randomSeed: int,
                           areas: seq<AreaInfo>, cells: seq<CellInfo>)

  /** `Region.GetArea(areaRef) != null`. */
  predicate HasArea(region: Region, areaRef: PrototypeId)
  {
    exists i :: 0 <= i < |region.areas| && region.areas[i].prototypeDataRef == areaRef
  }

  /** The property bag a mission-attributed request carries. */
  datatype PropertyCollection = PropertyCollection(missionPrototype: PrototypeId)

  /** The value of a `PopulationObject` at the moment it is registered. */
  datatype Request = Request(
    markerRef: PrototypeId,
    missionRef: PrototypeId,
    properties: Option<PropertyCollection>,
    spawnFlags: SpawnFlags,
    objectProto: PopObjectProto,
    spawnAreas: seq<PrototypeId>,
    spawnCells: seq<PrototypeId>,
    count: int)

  /** The object `AddPopulationObject` builds from its arguments. */
  function NewRequest(markerRef: PrototypeId, objectProto: PopObjectProto, count: int,
                      areas: seq<PrototypeId>, cells: seq<PrototypeId>, missionRef: PrototypeId): (r: Request)
    ensures r.properties.Some? <==> missionRef != Invalid
    ensures r.properties.Some? ==> r.properties.value.missionPrototype == missionRef
    ensures r.spawnFlags == SpawnFlagsNone
    ensures r.markerRef == markerRef && r.missionRef == missionRef && r.objectProto == objectProto
    ensures r.spawnAreas == areas && r.spawnCells == cells && r.count == count
  {
    Request(markerRef, missionRef,
            if missionRef != Invalid then Some(PropertyCollection(missionRef)) else None,
            SpawnFlagsNone, objectProto, areas, cells, count)
  }

  /** A weighted candidate of a `Picker`. */
  datatype Candidate = Candidate(item: PopObjectProto, weight: int)

  datatype BlackOutZone = BlackOutZone(id: int, position: Vector3, radius: real, missionRef: PrototypeId)

  lemma AppendAssoc<T>(a: seq<T>, b: seq<T>, c: seq<T>)
    ensures a + b + c == a + (b + c)
  {
  }

  /** A member of a non-empty set, as a witness for choosing one. */
  lemma SomeMember<T>(s: set<T>) returns (x: T)
    requires s != {}
    ensures x in s
  {
    x :| x in s;
  }

  /** C#'s unchecked `(int)` conversion of a 64-bit integer: two's-complement wrap. */
  function ToInt32(x: int): (r: int)
    ensures -0x8000_0000 <= r < 0x8000_0000
    ensures (x - r) % 0x1_0000_0000 == 0
    ensures -0x8000_0000 <= x < 0x8000_0000 ==> r == x
  {
    (x + 0x8000_0000) % 0x1_0000_0000 - 0x8000_0000
  }

  /** C#'s `(int)` conversion of a float: truncation toward zero. */
  function TruncToInt(x: real): (r: int)
    ensures 0.0 <= x ==> 0 <= r && r as real <= x < r as real + 1.0
    ensures x < 0.0 ==> r <= 0 && r as real - 1.0 < x <= r as real
  {
    if x >= 0.0 then x.Floor else -((-x).Floor)
  }
}
