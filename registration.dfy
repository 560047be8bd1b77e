/** Reference definitions of what the manager's registration routines register,
    as values, and the properties proved about them. The manager's methods are
    proved to append exactly these requests to the registration log (up to the
    order in which a picker draws without replacement). */
module Registration {
  import opened PopulationData

  /** What the registration routines read besides their arguments: the owning
      region, the prototype store, and whether the region is a patrol region. */
  datatype Context = Context(region: Region, db: GameDatabase, patrol: bool)

  /** The prototype refs of `areas`, in order (`Region.IterateAreas()` collected). */
  function AreaRefs(areas: seq<AreaInfo>): (r: seq<PrototypeId>)
    ensures |r| == |areas|
    ensures forall i :: 0 <= i < |areas| ==> r[i] == areas[i].prototypeDataRef
  {
    if areas == [] then [] else AreaRefs(areas[..|areas| - 1]) + [areas[|areas| - 1].prototypeDataRef]
  }

  /** The prototype ids of the cells whose area is not dynamic, in order. */
  function NonDynamicCellRefs(cells: seq<CellInfo>): seq<PrototypeId>
  {
    if cells == [] then []
    else
      var last := cells[|cells| - 1];
      NonDynamicCellRefs(cells[..|cells| - 1]) + (if !last.area.isDynamic then [last.prototypeId] else [])
  }

  /** The data refs `GameDatabase.GetDataRefByAsset` gives for `assets`, in order. */
  function AssetRefs(db: GameDatabase, assets: seq<AssetId>): (r: seq<PrototypeId>)
    ensures |r| == |assets|
    ensures forall i :: 0 <= i < |assets| ==> r[i] == db.dataRefByAsset(assets[i])
  {
    if assets == [] then [] else AssetRefs(db, assets[..|assets| - 1]) + [db.dataRefByAsset(assets[|assets| - 1])]
  }

  // ---------------------------------------------------------------- missions

  /** Some area `entry` is restricted to exists in the region. */
  predicate SomeAreaInRegion(region: Region, areas: seq<PrototypeId>)
  {
    exists i :: 0 <= i < |areas| && HasArea(region, areas[i])
  }

  /** The requests one mission population entry yields. */
  function EntryRequests(ctx: Context, missionRef: PrototypeId, e: MissionPopulationEntry): seq<Request>
  {
    var cells := AssetRefs(ctx.db, e.restrictToCells);
    if |e.restrictToAreas| > 0 then
      if SomeAreaInRegion(ctx.region, e.restrictToAreas) then
        [NewRequest(e.population.usePopulationMarker, e.population, ToInt32(e.count), e.restrictToAreas, cells, missionRef)]
      else []
    else if |e.restrictToRegions| > 0 then
      [NewRequest(e.population.usePopulationMarker, e.population, ToInt32(e.count), AreaRefs(ctx.region.areas), cells, missionRef)]
    else []
  }

  function EntriesRequests(ctx: Context, missionRef: PrototypeId, entries: seq<MissionPopulationEntry>): seq<Request>
  {
    if entries == [] then []
    else EntriesRequests(ctx, missionRef, entries[..|entries| - 1]) + EntryRequests(ctx, missionRef, entries[|entries| - 1])
  }

  lemma EntriesRequestsStep(ctx: Context, missionRef: PrototypeId, entries: seq<MissionPopulationEntry>, i: nat)
    requires i < |entries|
    ensures EntriesRequests(ctx, missionRef, entries[..i + 1]) ==
            EntriesRequests(ctx, missionRef, entries[..i]) + EntryRequests(ctx, missionRef, entries[i])
  {
    assert entries[..i + 1][..i] == entries[..i];
  }

  /** What `MissionRegisty` registers for `mission` (nothing for a null mission). */
  function MissionRequests(ctx: Context, mission: Option<MissionProto>): seq<Request>
  {
    if mission.None? then [] else EntriesRequests(ctx, mission.value.dataRef, mission.value.populationSpawns)
  }

  /** Per entry: an area restriction none of whose areas is in the region yields
      nothing; a region-only restriction yields one request over every area of
      the region; no restriction yields nothing; every request is attributed to
      the mission and carries the entry's template, marker and (int) count. */
  lemma EntryRequestsCases(ctx: Context, missionRef: PrototypeId, e: MissionPopulationEntry)
    ensures var r := EntryRequests(ctx, missionRef, e);
      && (|e.restrictToAreas| > 0 && !SomeAreaInRegion(ctx.region, e.restrictToAreas) ==> r == [])
      && (|e.restrictToAreas| > 0 && SomeAreaInRegion(ctx.region, e.restrictToAreas) ==>
            |r| == 1 && r[0].spawnAreas == e.restrictToAreas)
      && (|e.restrictToAreas| == 0 && |e.restrictToRegions| > 0 ==>
            |r| == 1 && r[0].spawnAreas == AreaRefs(ctx.region.areas))
      && (|e.restrictToAreas| == 0 && |e.restrictToRegions| == 0 ==> r == [])
      && forall q :: q in r ==> Attributed(q, missionRef) && FromEntry(ctx, q, e)
  {
  }

  /** The request is tagged with `missionRef`, and carries a mission property bag iff it is valid. */
  predicate Attributed(q: Request, missionRef: PrototypeId)
  {
    && q.missionRef == missionRef
    && (q.properties.Some? <==> missionRef != Invalid)
    && (q.properties.Some? ==> q.properties.value.missionPrototype == missionRef)
  }

  predicate FromEntry(ctx: Context, q: Request, e: MissionPopulationEntry)
  {
    && q.objectProto == e.population
    && q.markerRef == e.population.usePopulationMarker
    && q.count == ToInt32(e.count)
    && q.spawnCells == AssetRefs(ctx.db, e.restrictToCells)
    && q.spawnFlags == SpawnFlagsNone
  }

  /** Every request a mission registers is attributed to that mission and comes
      from one of its entries, and there is at most one request per entry. */
  lemma {:induction false} MissionRequestsAttributed(ctx: Context, mission: MissionProto)
    ensures var r := MissionRequests(ctx, Some(mission));
      && |r| <= |mission.populationSpawns|
      && forall q :: q in r ==>
           (Attributed(q, mission.dataRef) &&
            exists i :: 0 <= i < |mission.populationSpawns| && FromEntry(ctx, q, mission.populationSpawns[i]))
  {
    EntriesAttributed(ctx, mission.dataRef, mission.populationSpawns);
  }

  lemma {:induction false} EntriesAttributed(ctx: Context, missionRef: PrototypeId, entries: seq<MissionPopulationEntry>)
    ensures var r := EntriesRequests(ctx, missionRef, entries);
      && |r| <= |entries|
      && forall q :: q in r ==>
           (Attributed(q, missionRef) && exists i :: 0 <= i < |entries| && FromEntry(ctx, q, entries[i]))
  {
    if entries != [] {
      var n := |entries| - 1;
      EntriesAttributed(ctx, missionRef, entries[..n]);
      EntryRequestsCases(ctx, missionRef, entries[n]);
      var r := EntriesRequests(ctx, missionRef, entries);
      forall q | q in r
        ensures Attributed(q, missionRef) && exists i :: 0 <= i < |entries| && FromEntry(ctx, q, entries[i])
      {
        if q in EntriesRequests(ctx, missionRef, entries[..n]) {
          var i :| 0 <= i < n && FromEntry(ctx, q, entries[..n][i]);
          assert entries[..n][i] == entries[i];
        } else {
          assert FromEntry(ctx, q, entries[n]);
        }
      }
    }
  }

  /** A mission whose every entry names a region area, or is region-only, registers
      exactly one request per entry. */
  lemma {:induction false} EntriesAllAccepted(ctx: Context, missionRef: PrototypeId, entries: seq<MissionPopulationEntry>)
    requires forall i :: 0 <= i < |entries| ==>
      (if |entries[i].restrictToAreas| > 0 then SomeAreaInRegion(ctx.region, entries[i].restrictToAreas)
       else |entries[i].restrictToRegions| > 0)
    ensures |EntriesRequests(ctx, missionRef, entries)| == |entries|
  {
    if entries != [] {
      var n := |entries| - 1;
      EntriesAllAccepted(ctx, missionRef, entries[..n]);
      EntryRequestsCases(ctx, missionRef, entries[n]);
    }
  }

  /** A mission with no population spawns, or a null mission, registers nothing. */
  lemma NoSpawnsNoRequests(ctx: Context, mission: Option<MissionProto>)
    requires mission.None? || mission.value.populationSpawns == []
    ensures MissionRequests(ctx, mission) == []
  {
  }

  // --------------------------------------------------------- required objects

  /** The request `AddRequiredObjects` registers for one drawn entry. */
  function RequiredRequest(ctx: Context, o: RequiredObject, areas: seq<PrototypeId>, cells: seq<PrototypeId>): Request
  {
    NewRequest(o.popObject.usePopulationMarker, o.popObject, if ctx.patrol then 1 else o.count, areas, cells, Invalid)
  }

  function RequiredRequests(ctx: Context, objs: seq<RequiredObject>, areas: seq<PrototypeId>, cells: seq<PrototypeId>): (r: seq<Request>)
    ensures |r| == |objs|
    ensures forall i :: 0 <= i < |objs| ==> r[i] == RequiredRequest(ctx, objs[i], areas, cells)
  {
    if objs == [] then []
    else RequiredRequests(ctx, objs[..|objs| - 1], areas, cells) + [RequiredRequest(ctx, objs[|objs| - 1], areas, cells)]
  }

  /** The areas `AddRequiredObjects` restricts to: the given ones, or every region area. */
  function RequiredAreas(ctx: Context, restrictToAreas: seq<PrototypeId>): seq<PrototypeId>
  {
    if restrictToAreas == [] then AreaRefs(ctx.region.areas) else restrictToAreas
  }

  /** The cells `AddRequiredObjects` restricts to: every non-dynamic-area cell when
      no area is given, otherwise the given cell assets resolved. */
  function RequiredCells(ctx: Context, restrictToAreas: seq<PrototypeId>, restrictToCells: seq<AssetId>): seq<PrototypeId>
  {
    if restrictToAreas == [] then NonDynamicCellRefs(ctx.region.cells) else AssetRefs(ctx.db, restrictToCells)
  }

  /** What one `AddRequiredObjects` call registers, in input order; the call
      registers these in the order the picker draws them. */
  function RequiredBlock(ctx: Context, objs: seq<RequiredObject>, restrictToAreas: seq<PrototypeId>, restrictToCells: seq<AssetId>): seq<Request>
  {
    RequiredRequests(ctx, objs, RequiredAreas(ctx, restrictToAreas), RequiredCells(ctx, restrictToAreas, restrictToCells))
  }

  /** A cell id is listed iff some cell with that id lies in a non-dynamic area. */
  lemma NonDynamicCellRefsExact(cells: seq<CellInfo>, id: PrototypeId)
    ensures id in NonDynamicCellRefs(cells) <==>
      exists i :: 0 <= i < |cells| && cells[i].prototypeId == id && !cells[i].area.isDynamic
  {
    if id in NonDynamicCellRefs(cells) {
      NonDynamicCellRefsSound(cells, id);
    }
    forall i | 0 <= i < |cells| && cells[i].prototypeId == id && !cells[i].area.isDynamic
      ensures id in NonDynamicCellRefs(cells)
    {
      NonDynamicCellListed(cells, i);
    }
  }

  lemma {:induction false} NonDynamicCellRefsSound(cells: seq<CellInfo>, id: PrototypeId)
    requires id in NonDynamicCellRefs(cells)
    ensures exists i :: 0 <= i < |cells| && cells[i].prototypeId == id && !cells[i].area.isDynamic
  {
    var n := |cells| - 1;
    if id in NonDynamicCellRefs(cells[..n]) {
      NonDynamicCellRefsSound(cells[..n], id);
      var i :| 0 <= i < n && cells[..n][i].prototypeId == id && !cells[..n][i].area.isDynamic;
      assert cells[i] == cells[..n][i];
    } else {
      assert cells[n].prototypeId == id && !cells[n].area.isDynamic;
    }
  }

  lemma {:induction false} NonDynamicCellListed(cells: seq<CellInfo>, i: nat)
    requires i < |cells| && !cells[i].area.isDynamic
    ensures cells[i].prototypeId in NonDynamicCellRefs(cells)
  {
    var n := |cells| - 1;
    if i < n {
      assert cells[..n][i] == cells[i];
      NonDynamicCellListed(cells[..n], i);
    }
  }


  /** One request per entry; each carries the entry's template and marker, no
      mission, count 1 in a patrol region and the declared count otherwise; with
      no area restriction it spans every region area and the non-dynamic cells,
      otherwise the given areas verbatim and the given cells resolved. */
  lemma RequiredBlockShape(ctx: Context, objs: seq<RequiredObject>, restrictToAreas: seq<PrototypeId>,
                           restrictToCells: seq<AssetId>, i: nat)
    requires i < |objs|
    ensures var b := RequiredBlock(ctx, objs, restrictToAreas, restrictToCells);
      && |b| == |objs|
      && b[i].objectProto == objs[i].popObject
      && b[i].markerRef == objs[i].popObject.usePopulationMarker
      && b[i].missionRef == Invalid && b[i].properties.None?
      && b[i].count == (if ctx.patrol then 1 else objs[i].count)
      && (restrictToAreas == [] ==>
            b[i].spawnAreas == AreaRefs(ctx.region.areas) && b[i].spawnCells == NonDynamicCellRefs(ctx.region.cells))
      && (restrictToAreas != [] ==>
            b[i].spawnAreas == restrictToAreas && b[i].spawnCells == AssetRefs(ctx.db, restrictToCells))
  {
  }

  // --------------------------------------------------------------- metastates

  /** The areas a population-maintain state registers against, with the one
      hard-coded override: the Moloids state in CH0402UpperEastRegion uses all areas. */
  function MaintainAreas(ctx: Context, dataRef: PrototypeId, restrictToAreas: seq<PrototypeId>): seq<PrototypeId>
  {
    if dataRef == MoloidsMaintainRef && ctx.region.prototypeId == CH0402UpperEastRegion then [] else restrictToAreas
  }

  /** The `AddRequiredObjects` calls `MetaStateRegisty(ms)` makes, in call order,
      each given by the requests it registers. */
  function MetaStateBlocks(ctx: Context, ms: MetaState): seq<seq<Request>>
    decreases ms
  {
    match ms
    case MissionProgression(_, states) =>
      if states == [] then [] else MetaStateBlocks(ctx, states[0])
    case MissionActivate(_, subStates, objs, areas) =>
      StatesBlocks(ctx, subStates) + [RequiredBlock(ctx, objs, areas, [])]
    case MissionSequencer(_, sequence) =>
      SequenceBlocks(ctx, sequence)
    case WaveInstance(_, states) =>
      StatesBlocks(ctx, states)
    case PopulationMaintain(dataRef, objs, areas, cells) =>
      if objs == [] then [] else [RequiredBlock(ctx, objs, MaintainAreas(ctx, dataRef, areas), cells)]
    case Unknown => []
  }

  function StatesBlocks(ctx: Context, states: seq<MetaState>): seq<seq<Request>>
    decreases states
  {
    if states == [] then []
    else StatesBlocks(ctx, states[..|states| - 1]) + MetaStateBlocks(ctx, states[|states| - 1])
  }

  function SequenceBlocks(ctx: Context, sequence: seq<SequenceEntry>): seq<seq<Request>>
  {
    if sequence == [] then []
    else
      var e := sequence[|sequence| - 1];
      SequenceBlocks(ctx, sequence[..|sequence| - 1]) + [RequiredBlock(ctx, e.populationObjects, e.populationAreaRestriction, [])]
  }

  function Flatten(blocks: seq<seq<Request>>): seq<Request>
  {
    if blocks == [] then [] else blocks[0] + Flatten(blocks[1..])
  }

  /** `added` is the blocks one after the other, each in some order of its own. */
  predicate BlocksMatch(added: seq<Request>, blocks: seq<seq<Request>>)
    decreases blocks
  {
    if blocks == [] then added == []
    else
      && |blocks[0]| <= |added|
      && multiset(added[..|blocks[0]|]) == multiset(blocks[0])
      && BlocksMatch(added[|blocks[0]|..], blocks[1..])
  }

  lemma {:induction false} BlocksMatchConcat(a: seq<Request>, b: seq<Request>, ba: seq<seq<Request>>, bb: seq<seq<Request>>)
    requires BlocksMatch(a, ba) && BlocksMatch(b, bb)
    ensures BlocksMatch(a + b, ba + bb)
    decreases ba
  {
    if ba == [] {
      assert a + b == b;
      assert ba + bb == bb;
    } else {
      var k := |ba[0]|;
      BlocksMatchConcat(a[k..], b, ba[1..], bb);
      assert (ba + bb)[0] == ba[0];
      assert (ba + bb)[1..] == ba[1..] + bb;
      assert (a + b)[..k] == a[..k];
      assert (a + b)[k..] == a[k..] + b;
    }
  }

  /** One block, registered in any order. */
  lemma BlocksMatchSingle(added: seq<Request>, b: seq<Request>)
    requires multiset(added) == multiset(b)
    ensures BlocksMatch(added, [b])
  {
    assert |added| == |multiset(added)| == |b|;
    assert added[..|b|] == added;
    assert added[|b|..] == [];
    assert [b][1..] == [];
  }

  lemma RequiredRequestsConcat(ctx: Context, a: seq<RequiredObject>, b: seq<RequiredObject>,
                               areas: seq<PrototypeId>, cells: seq<PrototypeId>)
    ensures RequiredRequests(ctx, a + b, areas, cells) == RequiredRequests(ctx, a, areas, cells) + RequiredRequests(ctx, b, areas, cells)
  {
    var l := RequiredRequests(ctx, a + b, areas, cells);
    var r := RequiredRequests(ctx, a, areas, cells) + RequiredRequests(ctx, b, areas, cells);
    forall i | 0 <= i < |l|
      ensures l[i] == r[i]
    {
      if i < |a| {
        assert (a + b)[i] == a[i];
      } else {
        assert (a + b)[i] == b[i - |a|];
      }
    }
  }

  /** Drawing entry `k` out of the picker: its request leaves the remaining block. */
  lemma RequiredRequestsRemove(ctx: Context, objs: seq<RequiredObject>, k: nat, areas: seq<PrototypeId>, cells: seq<PrototypeId>)
    requires k < |objs|
    ensures multiset(RequiredRequests(ctx, objs, areas, cells)) ==
            multiset(RequiredRequests(ctx, objs[..k] + objs[k + 1..], areas, cells)) + multiset{RequiredRequest(ctx, objs[k], areas, cells)}
  {
    var pre, post := objs[..k], objs[k + 1..];
    assert objs == pre + [objs[k]] + post;
    RequiredRequestsConcat(ctx, pre + [objs[k]], post, areas, cells);
    RequiredRequestsConcat(ctx, pre, [objs[k]], areas, cells);
    RequiredRequestsConcat(ctx, pre, post, areas, cells);
    assert RequiredRequests(ctx, [objs[k]], areas, cells) == [RequiredRequest(ctx, objs[k], areas, cells)];
  }

  /** One draw of `AddRequiredObjects`: entry `k` leaves the picker and its
      request joins the registered ones, so drawn and pending requests together
      stay `total`. */
  lemma DrawStep(ctx: Context, added: seq<Request>, picker: seq<RequiredObject>, k: nat,
                 areas: seq<PrototypeId>, cells: seq<PrototypeId>, total: multiset<Request>)
    requires k < |picker|
    requires multiset(added) + multiset(RequiredRequests(ctx, picker, areas, cells)) == total
    ensures multiset(added + [RequiredRequest(ctx, picker[k], areas, cells)]) +
            multiset(RequiredRequests(ctx, picker[..k] + picker[k + 1..], areas, cells)) == total
  {
    RequiredRequestsRemove(ctx, picker, k, areas, cells);
  }

  /** In a patrol region every request drawn from a required block, in any
      order, has count 1. */
  lemma PatrolCountsOne(ctx: Context, objs: seq<RequiredObject>, areas: seq<PrototypeId>, cells: seq<PrototypeId>,
                        drawn: seq<Request>)
    requires ctx.patrol
    requires multiset(drawn) == multiset(RequiredRequests(ctx, objs, areas, cells))
    ensures forall k :: 0 <= k < |drawn| ==> drawn[k].count == 1
  {
    forall k | 0 <= k < |drawn| ensures drawn[k].count == 1 {
      assert drawn[k] in multiset(RequiredRequests(ctx, objs, areas, cells));
    }
  }

  lemma StatesBlocksStep(ctx: Context, states: seq<MetaState>, i: nat)
    requires i < |states|
    ensures StatesBlocks(ctx, states[..i + 1]) == StatesBlocks(ctx, states[..i]) + MetaStateBlocks(ctx, states[i])
  {
    assert states[..i + 1][..i] == states[..i];
  }

  lemma SequenceBlocksStep(ctx: Context, sequence: seq<SequenceEntry>, i: nat)
    requires i < |sequence|
    ensures SequenceBlocks(ctx, sequence[..i + 1]) ==
            SequenceBlocks(ctx, sequence[..i]) + [RequiredBlock(ctx, sequence[i].populationObjects, sequence[i].populationAreaRestriction, [])]
  {
    assert sequence[..i + 1][..i] == sequence[..i];
  }

  /** The registered requests are, as a multiset, exactly those of all blocks. */
  lemma {:induction false} BlocksMatchPermutation(added: seq<Request>, blocks: seq<seq<Request>>)
    requires BlocksMatch(added, blocks)
    ensures multiset(added) == multiset(Flatten(blocks))
    ensures |added| == |Flatten(blocks)|
    decreases blocks
  {
    if blocks != [] {
      var k := |blocks[0]|;
      BlocksMatchPermutation(added[k..], blocks[1..]);
      assert added == added[..k] + added[k..];
    }
  }

  /** Every request that metastate registration produces is unattributed: no
      mission and no property bag. */
  lemma {:induction false} MetaStateRequestsUnattributed(ctx: Context, ms: MetaState, bi: nat, ri: nat)
    requires bi < |MetaStateBlocks(ctx, ms)| && ri < |MetaStateBlocks(ctx, ms)[bi]|
    ensures MetaStateBlocks(ctx, ms)[bi][ri].missionRef == Invalid
    ensures MetaStateBlocks(ctx, ms)[bi][ri].properties.None?
    ensures ctx.patrol ==> MetaStateBlocks(ctx, ms)[bi][ri].count == 1
    decreases ms
  {
    match ms
    case MissionProgression(_, states) =>
      MetaStateRequestsUnattributed(ctx, states[0], bi, ri);
    case MissionActivate(_, subStates, objs, areas) =>
      var sb := StatesBlocks(ctx, subStates);
      if bi < |sb| {
        StatesRequestsUnattributed(ctx, subStates, bi, ri);
      } else {
        RequiredBlockShape(ctx, objs, areas, [], ri);
      }
    case MissionSequencer(_, sequence) =>
      SequenceRequestsUnattributed(ctx, sequence, bi, ri);
    case WaveInstance(_, states) =>
      StatesRequestsUnattributed(ctx, states, bi, ri);
    case PopulationMaintain(dataRef, objs, areas, cells) =>
      RequiredBlockShape(ctx, objs, MaintainAreas(ctx, dataRef, areas), cells, ri);
  }

  lemma {:induction false} StatesRequestsUnattributed(ctx: Context, states: seq<MetaState>, bi: nat, ri: nat)
    requires bi < |StatesBlocks(ctx, states)| && ri < |StatesBlocks(ctx, states)[bi]|
    ensures StatesBlocks(ctx, states)[bi][ri].missionRef == Invalid
    ensures StatesBlocks(ctx, states)[bi][ri].properties.None?
    ensures ctx.patrol ==> StatesBlocks(ctx, states)[bi][ri].count == 1
    decreases states
  {
    var n := |states| - 1;
    var front := StatesBlocks(ctx, states[..n]);
    if bi < |front| {
      StatesRequestsUnattributed(ctx, states[..n], bi, ri);
    } else {
      assert states[n] in states;
      MetaStateRequestsUnattributed(ctx, states[n], bi - |front|, ri);
    }
  }

  lemma {:induction false} SequenceRequestsUnattributed(ctx: Context, sequence: seq<SequenceEntry>, bi: nat, ri: nat)
    requires bi < |SequenceBlocks(ctx, sequence)| && ri < |SequenceBlocks(ctx, sequence)[bi]|
    ensures SequenceBlocks(ctx, sequence)[bi][ri].missionRef == Invalid
    ensures SequenceBlocks(ctx, sequence)[bi][ri].properties.None?
    ensures ctx.patrol ==> SequenceBlocks(ctx, sequence)[bi][ri].count == 1
  {
    var n := |sequence| - 1;
    var front := SequenceBlocks(ctx, sequence[..n]);
    if bi < |front| {
      SequenceRequestsUnattributed(ctx, sequence[..n], bi, ri);
    } else {
      var e := sequence[n];
      RequiredBlockShape(ctx, e.populationObjects, e.populationAreaRestriction, [], ri);
    }
  }

  /** The Moloids override: that state, in that region, registers against every
      area of the region and its non-dynamic cells, whatever areas it declares. */
  lemma MoloidsOverride(ctx: Context, objs: seq<RequiredObject>, areas: seq<PrototypeId>, cells: seq<AssetId>, i: nat)
    requires ctx.region.prototypeId == CH0402UpperEastRegion
    requires i < |objs|
    ensures var blocks := MetaStateBlocks(ctx, PopulationMaintain(MoloidsMaintainRef, objs, areas, cells));
      && |blocks| == 1 && |blocks[0]| == |objs|
      && blocks[0][i].spawnAreas == AreaRefs(ctx.region.areas)
      && blocks[0][i].spawnCells == NonDynamicCellRefs(ctx.region.cells)
  {
    RequiredBlockShape(ctx, objs, [], cells, i);
  }
}
