/** Reference definitions for one area's population pass: the encounter
    flattening, the pickers, the grouping of encounters by spawn-marker type and
    the ambient density budget; and the properties proved about them. */
module Encounters {
  import opened PopulationData

  // -------------------------------------------------------------- encounters

  /** An entry `GetContainedEncounters` keeps: non-null, positive weight, a leaf object. */
  predicate IsEncounter(inst: Instance)
  {
    inst.weight > 0 && inst.target.PopObject?
  }

  /** What one list entry contributes: nothing for a null entry, a weight <= 0 or
      a non-population prototype; itself for a leaf; the flattening of a nested list. */
  function EntryEncounters(e: Option<Instance>): seq<Instance>
    decreases e, 0
  {
    if e.None? || e.value.weight <= 0 then []
    else
      match e.value.target
      case PopObject(_) => [e.value]
      case ObjectList(nested) => Contained(nested, 0)
      case NotPopulation => []
  }

  /** The encounters contained in `ol.list[from..]`, depth first, in input order. */
  function Contained(ol: PopulationObjectList, from: nat): seq<Instance>
    requires from <= |ol.list|
    decreases ol, |ol.list| - from
  {
    if from == |ol.list| then [] else EntryEncounters(ol.list[from]) + Contained(ol, from + 1)
  }

  /** Only kept entries come out of the flattening. */
  lemma {:induction false} ContainedAreEncounters(ol: PopulationObjectList, from: nat)
    requires from <= |ol.list|
    ensures forall x :: x in Contained(ol, from) ==> IsEncounter(x)
    decreases ol, |ol.list| - from
  {
    if from < |ol.list| {
      EntryAreEncounters(ol.list[from]);
      ContainedAreEncounters(ol, from + 1);
    }
  }

  lemma {:induction false} EntryAreEncounters(e: Option<Instance>)
    ensures forall x :: x in EntryEncounters(e) ==> IsEncounter(x)
    decreases e, 0
  {
    if e.Some? && e.value.weight > 0 && e.value.target.ObjectList? {
      ContainedAreEncounters(e.value.target.list, 0);
    }
  }

  /** Every entry's contribution sits, in order, inside the flattening: the result
      is the contributions of `ol.list[from..i]`, then that of entry `i`, then the rest. */
  lemma {:induction false} ContainedSplit(ol: PopulationObjectList, from: nat, i: nat)
    requires from <= i < |ol.list|
    ensures exists pre :: Contained(ol, from) == pre + EntryEncounters(ol.list[i]) + Contained(ol, i + 1)
    decreases i - from
  {
    if from == i {
      assert Contained(ol, from) == [] + EntryEncounters(ol.list[i]) + Contained(ol, i + 1);
    } else {
      ContainedSplit(ol, from + 1, i);
      var pre :| Contained(ol, from + 1) == pre + EntryEncounters(ol.list[i]) + Contained(ol, i + 1);
      var pre' := EntryEncounters(ol.list[from]) + pre;
      assert Contained(ol, from) == pre' + EntryEncounters(ol.list[i]) + Contained(ol, i + 1);
    }
  }

  /** A leaf entry with positive weight is kept, wherever it is in a list. */
  lemma TopLevelLeafKept(ol: PopulationObjectList, i: nat)
    requires i < |ol.list| && ol.list[i].Some? && IsEncounter(ol.list[i].value)
    ensures ol.list[i].value in Contained(ol, 0)
  {
    ContainedSplit(ol, 0, i);
    var pre :| Contained(ol, 0) == pre + EntryEncounters(ol.list[i]) + Contained(ol, i + 1);
    assert Contained(ol, 0)[|pre|] == ol.list[i].value;
  }

  // ------------------------------------------------------------------ pickers

  /** The candidates `PopulatePicker` adds: every entry whose object is a leaf, with
      its declared weight, in input order. */
  function PickerEntries(list: seq<Instance>): seq<Candidate>
  {
    if list == [] then []
    else
      var last := list[|list| - 1];
      PickerEntries(list[..|list| - 1]) +
        (if AsPopObject(last.target).Some? then [Candidate(AsPopObject(last.target).value, last.weight)] else [])
  }

  /** A candidate is in the picker iff some entry of the list is a leaf carrying it. */
  lemma {:induction false} PickerEntriesExact(list: seq<Instance>, c: Candidate)
    ensures c in PickerEntries(list) <==>
      exists i :: 0 <= i < |list| && list[i].target == PopObject(c.item) && list[i].weight == c.weight
  {
    if list != [] {
      var n := |list| - 1;
      PickerEntriesExact(list[..n], c);
      if c in PickerEntries(list[..n]) {
        var i :| 0 <= i < n && list[..n][i].target == PopObject(c.item) && list[..n][i].weight == c.weight;
        assert list[i] == list[..n][i];
      }
      if exists i :: 0 <= i < |list| && list[i].target == PopObject(c.item) && list[i].weight == c.weight {
        var i :| 0 <= i < |list| && list[i].target == PopObject(c.item) && list[i].weight == c.weight;
        if i < n {
          assert list[..n][i] == list[i];
        }
      }
    }
  }

  lemma {:induction false} PickerEntriesLength(list: seq<Instance>)
    ensures |PickerEntries(list)| <= |list|
    ensures (forall i :: 0 <= i < |list| ==> list[i].target.PopObject?) ==> |PickerEntries(list)| == |list|
  {
    if list != [] {
      var n := |list| - 1;
      PickerEntriesLength(list[..n]);
      if forall i :: 0 <= i < |list| ==> list[i].target.PopObject? {
        assert forall i :: 0 <= i < n ==> list[..n][i].target.PopObject? by {
          forall i | 0 <= i < n ensures list[..n][i].target.PopObject? {
            assert list[..n][i] == list[i];
          }
        }
      }
    }
  }

  /** The objects a picker can return. */
  function Items(cs: seq<Candidate>): (r: seq<PopObjectProto>)
    ensures |r| == |cs|
    ensures forall i :: 0 <= i < |cs| ==> r[i] == cs[i].item
  {
    if cs == [] then [] else Items(cs[..|cs| - 1]) + [cs[|cs| - 1].item]
  }

  // ---------------------------------------------------- grouping by marker type

  /** The spawn marker an encounter's object uses. */
  function MarkerOf(inst: Instance): PrototypeId
  {
    if inst.target.PopObject? then inst.target.proto.usePopulationMarker else Invalid
  }

  /** The marker types of `encs`, each once, in order of first appearance. */
  function DistinctMarkers(encs: seq<Instance>): seq<PrototypeId>
  {
    if encs == [] then []
    else
      var prev := DistinctMarkers(encs[..|encs| - 1]);
      var m := MarkerOf(encs[|encs| - 1]);
      if m in prev then prev else prev + [m]
  }

  /** The candidates the encounters of marker type `m` contribute, in order. */
  function CandidatesFor(encs: seq<Instance>, m: PrototypeId): seq<Candidate>
  {
    if encs == [] then []
    else
      var last := encs[|encs| - 1];
      CandidatesFor(encs[..|encs| - 1], m) +
        (if last.target.PopObject? && MarkerOf(last) == m then [Candidate(last.target.proto, last.weight)] else [])
  }

  /** Each marker type is listed exactly once, and exactly the types of `encs` are listed. */
  lemma DistinctMarkersExact(encs: seq<Instance>)
    ensures NoDuplicates(DistinctMarkers(encs))
    ensures forall m :: m in DistinctMarkers(encs) <==> exists i :: 0 <= i < |encs| && MarkerOf(encs[i]) == m
  {
    DistinctMarkersNoDup(encs);
    forall m ensures m in DistinctMarkers(encs) <==> exists i :: 0 <= i < |encs| && MarkerOf(encs[i]) == m {
      DistinctMarkersMember(encs, m);
    }
  }

  /** No value occurs twice in `s`. */
  predicate NoDuplicates(s: seq<PrototypeId>)
  {
    forall a, b :: 0 <= a < b < |s| ==> s[a] != s[b]
  }

  lemma {:induction false} DistinctMarkersNoDup(encs: seq<Instance>)
    ensures NoDuplicates(DistinctMarkers(encs))
  {
    if encs != [] {
      var prev := DistinctMarkers(encs[..|encs| - 1]);
      DistinctMarkersNoDup(encs[..|encs| - 1]);
      var m := MarkerOf(encs[|encs| - 1]);
      if m !in prev {
        AppendFresh(prev, m);
      }
    }
  }

  lemma AppendFresh(s: seq<PrototypeId>, m: PrototypeId)
    requires NoDuplicates(s) && m !in s
    ensures NoDuplicates(s + [m])
  {
    var d := s + [m];
    forall a, b | 0 <= a < b < |d| ensures d[a] != d[b] {
      if b < |s| {
        assert d[a] == s[a] && d[b] == s[b];
      } else {
        assert d[a] == s[a] && s[a] in s;
      }
    }
  }

  lemma {:induction false} DistinctMarkersMember(encs: seq<Instance>, m: PrototypeId)
    ensures m in DistinctMarkers(encs) <==> exists i :: 0 <= i < |encs| && MarkerOf(encs[i]) == m
  {
    if encs != [] {
      var n := |encs| - 1;
      DistinctMarkersMember(encs[..n], m);
      var prev := DistinctMarkers(encs[..n]);
      if m in DistinctMarkers(encs) {
        if m in prev {
          var i :| 0 <= i < n && MarkerOf(encs[..n][i]) == m;
          assert encs[i] == encs[..n][i];
        } else {
          assert MarkerOf(encs[n]) == m;
        }
      }
      if exists i :: 0 <= i < |encs| && MarkerOf(encs[i]) == m {
        var i :| 0 <= i < |encs| && MarkerOf(encs[i]) == m;
        if i < n {
          assert encs[..n][i] == encs[i];
          assert m in prev;
        } else {
          assert m == MarkerOf(encs[n]);
        }
      }
    }
  }

  /** A type not yet seen has no candidates; one that is listed has some. */
  lemma {:induction false} CandidatesForListed(encs: seq<Instance>, m: PrototypeId)
    requires forall i :: 0 <= i < |encs| ==> encs[i].target.PopObject?
    ensures m !in DistinctMarkers(encs) <==> CandidatesFor(encs, m) == []
  {
    if encs != [] {
      var n := |encs| - 1;
      assert forall i :: 0 <= i < n ==> encs[..n][i] == encs[i];
      CandidatesForListed(encs[..n], m);
    }
  }

  /** Every candidate of type `m` comes from an encounter of that type, with its weight. */
  lemma {:induction false} CandidatesForSound(encs: seq<Instance>, m: PrototypeId, c: Candidate)
    requires c in CandidatesFor(encs, m)
    ensures exists i ::
      (0 <= i < |encs| && MarkerOf(encs[i]) == m && encs[i].target == PopObject(c.item) && encs[i].weight == c.weight)
  {
    var n := |encs| - 1;
    if c in CandidatesFor(encs[..n], m) {
      CandidatesForSound(encs[..n], m, c);
      var i :| 0 <= i < n && MarkerOf(encs[..n][i]) == m &&
        encs[..n][i].target == PopObject(c.item) && encs[..n][i].weight == c.weight;
      assert encs[..n][i] == encs[i];
    } else {
      assert c == Candidate(encs[n].target.proto, encs[n].weight);
      assert MarkerOf(encs[n]) == m && encs[n].target == PopObject(c.item) && encs[n].weight == c.weight;
    }
  }

  /** A marker type's memoised picker and count (`SpawnPicker`). */
  datatype SpawnPicker = SpawnPicker(picker: Option<seq<Candidate>>, count: int)

  /** `Math.Max(1, (int)(slots * density / 100))`. */
  function EncounterCount(slots: int, densityPct: real): (r: int)
    ensures r >= 1
    ensures slots as real * (densityPct / 100.0) >= 1.0 ==> r == TruncToInt(slots as real * (densityPct / 100.0))
    ensures slots as real * (densityPct / 100.0) < 1.0 ==> r == 1
  {
    var n := TruncToInt(slots as real * (densityPct / 100.0));
    if n > 1 then n else 1
  }

  /** The picker a marker type ends with: none and count 0 when it has no free
      slot, otherwise all its candidates and the density-scaled count. */
  function GroupedPicker(slots: int, densityPct: real, cands: seq<Candidate>): (sp: SpawnPicker)
    ensures sp.picker.Some? <==> slots != 0
    ensures sp.picker.Some? <==> sp.count > 0
    ensures sp.picker.Some? ==> sp.picker.value == cands && sp.count == EncounterCount(slots, densityPct)
  {
    if slots == 0 then SpawnPicker(None, 0) else SpawnPicker(Some(cands), EncounterCount(slots, densityPct))
  }

  /** The pickers the grouping loop ends with after the encounters `encs`: one
      per listed marker type, `n` reservation queries into the registry's history. */
  ghost function Grouped(encs: seq<Instance>, freeSlots: (nat, PrototypeId, PrototypeId) -> int, n: nat,
                         areaRef: PrototypeId, density: PrototypeId -> real): map<PrototypeId, SpawnPicker>
  {
    map m | m in DistinctMarkers(encs) :: GroupedPicker(freeSlots(n, m, areaRef), density(m), CandidatesFor(encs, m))
  }

  /** The picker encounter `e` finds for its type (`base`, created if new) and
      leaves behind: `e` joins it iff its count is positive. */
  function Joined(base: SpawnPicker, e: Instance): (r: SpawnPicker)
    requires base.count > 0 ==> base.picker.Some?
    requires e.target.PopObject?
    ensures r.count == base.count
    ensures base.count > 0 ==> r.picker == Some(base.picker.value + [Candidate(e.target.proto, e.weight)])
    ensures base.count <= 0 ==> r == base
  {
    if base.count > 0 then base.(picker := Some(base.picker.value + [Candidate(e.target.proto, e.weight)])) else base
  }

  /** One encounter of the grouping loop: the types listed and the pickers after
      it, from those before it. */
  lemma GroupedStep(encs: seq<Instance>, i: nat, freeSlots: (nat, PrototypeId, PrototypeId) -> int, n: nat,
                    areaRef: PrototypeId, density: PrototypeId -> real)
    requires i < |encs|
    requires forall j :: 0 <= j < |encs| ==> IsEncounter(encs[j])
    ensures encs[i].target.PopObject?
    ensures var p := Grouped(encs[..i], freeSlots, n, areaRef, density);
      var m := MarkerOf(encs[i]);
      var base := if m in p then p[m] else GroupedPicker(freeSlots(n, m, areaRef), density(m), []);
      && (m in p <==> m in DistinctMarkers(encs[..i]))
      && (base.count > 0 ==> base.picker.Some?)
      && DistinctMarkers(encs[..i + 1]) == (if m in p then DistinctMarkers(encs[..i]) else DistinctMarkers(encs[..i]) + [m])
      && Grouped(encs[..i + 1], freeSlots, n, areaRef, density) == p[m := Joined(base, encs[i])]
  {
    var e := encs[i];
    assert IsEncounter(e);
    var m := MarkerOf(e);
    GroupingStep(encs, i);
    var p := Grouped(encs[..i], freeSlots, n, areaRef, density);
    var base := if m in p then p[m] else GroupedPicker(freeSlots(n, m, areaRef), density(m), []);
    assert base == GroupedPicker(freeSlots(n, m, areaRef), density(m), CandidatesFor(encs[..i], m));
    JoinedGrouped(freeSlots(n, m, areaRef), density(m), CandidatesFor(encs[..i], m), e);
    var np := p[m := Joined(base, e)];
    var q := Grouped(encs[..i + 1], freeSlots, n, areaRef, density);
    assert forall m' :: m' in np <==> m' in q;
    forall m' | m' in q
      ensures q[m'] == np[m']
    {
      CandidatesForStep(encs, i, m');
      var g := GroupedPicker(freeSlots(n, m', areaRef), density(m'), CandidatesFor(encs[..i + 1], m'));
      assert q[m'] == g;
      if m' == m {
        assert g == Joined(base, e);
      } else {
        assert m' in p;
        assert CandidatesFor(encs[..i + 1], m') == CandidatesFor(encs[..i], m') + [];
        assert CandidatesFor(encs[..i], m') + [] == CandidatesFor(encs[..i], m');
        assert p[m'] == GroupedPicker(freeSlots(n, m', areaRef), density(m'), CandidatesFor(encs[..i], m'));
      }
    }
  }

  /** Joining an encounter to a grouped picker is grouping with one more candidate. */
  lemma JoinedGrouped(slots: int, densityPct: real, cands: seq<Candidate>, e: Instance)
    requires e.target.PopObject?
    ensures Joined(GroupedPicker(slots, densityPct, cands), e) ==
            GroupedPicker(slots, densityPct, cands + [Candidate(e.target.proto, e.weight)])
  {
  }

  /** Encounter `i` adds itself to its own type's candidates and to no other's. */
  lemma CandidatesForStep(encs: seq<Instance>, i: nat, m: PrototypeId)
    requires i < |encs| && IsEncounter(encs[i])
    ensures CandidatesFor(encs[..i + 1], m) ==
            CandidatesFor(encs[..i], m) + (if MarkerOf(encs[i]) == m then [Candidate(encs[i].target.proto, encs[i].weight)] else [])
  {
    assert encs[..i + 1][..i] == encs[..i];
  }

  /** What the grouping promises for every marker type: a picker exactly for the
      types that occur; it has a picker iff the registry reported free slots, then
      with the density-scaled count and exactly the type's encounters as candidates. */
  lemma GroupedExact(encs: seq<Instance>, freeSlots: (nat, PrototypeId, PrototypeId) -> int, n: nat,
                     areaRef: PrototypeId, density: PrototypeId -> real, m: PrototypeId, c: Candidate)
    requires forall j :: 0 <= j < |encs| ==> IsEncounter(encs[j])
    ensures var g := Grouped(encs, freeSlots, n, areaRef, density);
      && (m in g <==> exists i :: 0 <= i < |encs| && MarkerOf(encs[i]) == m)
      && (m in g ==>
            && (g[m].picker.Some? <==> freeSlots(n, m, areaRef) != 0)
            && (g[m].picker.Some? ==>
                  && g[m].count == EncounterCount(freeSlots(n, m, areaRef), density(m))
                  && g[m].picker.value != []
                  && (c in g[m].picker.value <==>
                        exists i :: (0 <= i < |encs| && MarkerOf(encs[i]) == m &&
                                     encs[i].target == PopObject(c.item) && encs[i].weight == c.weight))))
  {
    DistinctMarkersMember(encs, m);
    CandidatesForListed(encs, m);
    if c in CandidatesFor(encs, m) {
      CandidatesForSound(encs, m, c);
    }
    forall i | 0 <= i < |encs| && MarkerOf(encs[i]) == m && encs[i].target == PopObject(c.item) && encs[i].weight == c.weight
      ensures c in CandidatesFor(encs, m)
    {
      CandidatesForComplete(encs, i);
    }
  }

  /** Every encounter is a candidate of its own type. */
  lemma {:induction false} CandidatesForComplete(encs: seq<Instance>, i: nat)
    requires i < |encs| && IsEncounter(encs[i])
    ensures Candidate(encs[i].target.proto, encs[i].weight) in CandidatesFor(encs, MarkerOf(encs[i]))
  {
    var n := |encs| - 1;
    if i < n {
      assert encs[..n][i] == encs[i];
      CandidatesForComplete(encs[..n], i);
    }
  }

  /** How the listed types and each type's candidates grow with encounter `i`. */
  lemma GroupingStep(encs: seq<Instance>, i: nat)
    requires i < |encs|
    requires forall j :: 0 <= j < |encs| ==> IsEncounter(encs[j])
    ensures var e := encs[i];
      var prev := DistinctMarkers(encs[..i]);
      && e.target.PopObject?
      && DistinctMarkers(encs[..i + 1]) == (if MarkerOf(e) in prev then prev else prev + [MarkerOf(e)])
      && (MarkerOf(e) !in prev ==> CandidatesFor(encs[..i], MarkerOf(e)) == [])
  {
    assert IsEncounter(encs[i]);
    assert encs[..i + 1][..i] == encs[..i];
    assert forall j :: 0 <= j < i ==> encs[..i][j] == encs[j];
    CandidatesForListed(encs[..i], MarkerOf(encs[i]));
  }

  /** The `(marker, area)` free-slot queries made, one per listed marker type. */
  function SlotQueries(keys: seq<PrototypeId>, areaRef: PrototypeId): (r: seq<(PrototypeId, PrototypeId)>)
    ensures |r| == |keys|
    ensures forall i :: 0 <= i < |keys| ==> r[i] == (keys[i], areaRef)
  {
    if keys == [] then [] else SlotQueries(keys[..|keys| - 1], areaRef) + [(keys[|keys| - 1], areaRef)]
  }

  /** Free slots are queried at most once per marker type, and for every type met. */
  lemma SlotQueriesOncePerMarker(encs: seq<Instance>, areaRef: PrototypeId)
    ensures var q := SlotQueries(DistinctMarkers(encs), areaRef);
      && (forall a, b :: 0 <= a < b < |q| ==> q[a] != q[b])
      && (forall i :: 0 <= i < |encs| ==> (MarkerOf(encs[i]), areaRef) in q)
  {
    var d := DistinctMarkers(encs);
    DistinctMarkersExact(encs);
    var q := SlotQueries(d, areaRef);
    forall i | 0 <= i < |encs| ensures (MarkerOf(encs[i]), areaRef) in q {
      var j :| 0 <= j < |d| && d[j] == MarkerOf(encs[i]);
      assert q[j] == (MarkerOf(encs[i]), areaRef);
    }
  }
  lemma SlotQueriesAppend(before: seq<(PrototypeId, PrototypeId)>, keys: seq<PrototypeId>, m: PrototypeId, areaRef: PrototypeId)
    ensures before + SlotQueries(keys + [m], areaRef) == before + SlotQueries(keys, areaRef) + [(m, areaRef)]
  {
    assert (keys + [m])[..|keys|] == keys;
  }


  /** The requests of the marker pass: for each listed type in turn, one request
      if its picker exists, naming that type, the picker's count, the area and
      an object the picker holds. */
  predicate MarkerRegistrations(added: seq<Request>, keys: seq<PrototypeId>, pickers: map<PrototypeId, SpawnPicker>,
                                areas: seq<PrototypeId>)
    requires forall m :: m in keys ==> m in pickers
  {
    if keys == [] then added == []
    else
      var m := keys[|keys| - 1];
      var sp := pickers[m];
      if sp.picker.None? then MarkerRegistrations(added, keys[..|keys| - 1], pickers, areas)
      else
        && |added| > 0
        && MarkerRequest(added[|added| - 1], m, sp, areas)
        && MarkerRegistrations(added[..|added| - 1], keys[..|keys| - 1], pickers, areas)
  }

  predicate MarkerRequest(q: Request, m: PrototypeId, sp: SpawnPicker, areas: seq<PrototypeId>)
    requires sp.picker.Some?
  {
    q == NewRequest(m, q.objectProto, sp.count, areas, [], Invalid) && q.objectProto in Items(sp.picker.value)
  }

  /** `q` was built from the picker of its own listed type. */
  ghost predicate FromPicker(q: Request, keys: seq<PrototypeId>, pickers: map<PrototypeId, SpawnPicker>, areas: seq<PrototypeId>)
    requires forall m :: m in keys ==> m in pickers
  {
    q.markerRef in keys && pickers[q.markerRef].picker.Some? && MarkerRequest(q, q.markerRef, pickers[q.markerRef], areas)
  }

  /** The marker pass makes at most one request per listed type. */
  lemma {:induction false} MarkerRegistrationsLength(added: seq<Request>, keys: seq<PrototypeId>,
                                                     pickers: map<PrototypeId, SpawnPicker>, areas: seq<PrototypeId>)
    requires forall m :: m in keys ==> m in pickers
    requires MarkerRegistrations(added, keys, pickers, areas)
    ensures |added| <= |keys|
  {
    if keys != [] {
      var n := |keys| - 1;
      assert forall m :: m in keys[..n] ==> m in keys;
      if pickers[keys[n]].picker.None? {
        MarkerRegistrationsLength(added, keys[..n], pickers, areas);
      } else {
        MarkerRegistrationsLength(added[..|added| - 1], keys[..n], pickers, areas);
      }
    }
  }

  /** Each request of the marker pass comes from the picker of a listed type. */
  lemma {:induction false} MarkerRegistrationAt(added: seq<Request>, keys: seq<PrototypeId>,
                                                pickers: map<PrototypeId, SpawnPicker>, areas: seq<PrototypeId>, j: nat)
    requires forall m :: m in keys ==> m in pickers
    requires MarkerRegistrations(added, keys, pickers, areas)
    requires j < |added|
    ensures FromPicker(added[j], keys, pickers, areas)
  {
    var n := |keys| - 1;
    assert forall m :: m in keys[..n] ==> m in keys;
    if pickers[keys[n]].picker.None? {
      MarkerRegistrationAt(added, keys[..n], pickers, areas, j);
    } else if j < |added| - 1 {
      MarkerRegistrationAt(added[..|added| - 1], keys[..n], pickers, areas, j);
      assert added[..|added| - 1][j] == added[j];
    } else {
      assert keys[n] in keys;
    }
  }

  /** No two requests of the marker pass name the same type. */
  lemma {:induction false} MarkerRegistrationsDistinct(added: seq<Request>, keys: seq<PrototypeId>,
                                                       pickers: map<PrototypeId, SpawnPicker>, areas: seq<PrototypeId>)
    requires forall m :: m in keys ==> m in pickers
    requires NoDuplicates(keys)
    requires MarkerRegistrations(added, keys, pickers, areas)
    ensures forall a, b :: 0 <= a < b < |added| ==> added[a].markerRef != added[b].markerRef
  {
    if keys != [] {
      var n := |keys| - 1;
      assert forall m :: m in keys[..n] ==> m in keys;
      assert NoDuplicates(keys[..n]);
      if pickers[keys[n]].picker.None? {
        MarkerRegistrationsDistinct(added, keys[..n], pickers, areas);
      } else {
        var prev := added[..|added| - 1];
        MarkerRegistrationsDistinct(prev, keys[..n], pickers, areas);
        forall a | 0 <= a < |prev|
          ensures added[a].markerRef != keys[n]
        {
          MarkerRegistrationAt(prev, keys[..n], pickers, areas, a);
          assert prev[a] == added[a];
          var k :| 0 <= k < n && keys[..n][k] == added[a].markerRef;
          assert keys[k] == added[a].markerRef;
        }
      }
    }
  }

  /** Every listed type with a picker has a request in the marker pass. */
  lemma {:induction false} MarkerRegistered(added: seq<Request>, keys: seq<PrototypeId>,
                                            pickers: map<PrototypeId, SpawnPicker>, areas: seq<PrototypeId>, k: nat)
    returns (j: nat)
    requires forall m :: m in keys ==> m in pickers
    requires MarkerRegistrations(added, keys, pickers, areas)
    requires k < |keys| && keys[k] in pickers && pickers[keys[k]].picker.Some?
    ensures j < |added| && added[j].markerRef == keys[k]
  {
    var n := |keys| - 1;
    assert forall m :: m in keys[..n] ==> m in keys;
    if k == n {
      j := |added| - 1;
    } else if pickers[keys[n]].picker.None? {
      assert keys[..n][k] == keys[k];
      j := MarkerRegistered(added, keys[..n], pickers, areas, k);
    } else {
      assert keys[..n][k] == keys[k];
      j := MarkerRegistered(added[..|added| - 1], keys[..n], pickers, areas, k);
      assert added[..|added| - 1][j] == added[j];
    }
  }

  /** What one `Spawn` marker pass registers, in terms of the encounters: each
      request names a type met among them that has free slots, with the
      density-scaled count, the area, no cell and no mission, and an object some
      encounter of that type targets; no type twice. */
  lemma MarkerPassRequests(encs: seq<Instance>, picked: seq<Request>, freeSlots: (nat, PrototypeId, PrototypeId) -> int,
                           n: nat, areaRef: PrototypeId, density: PrototypeId -> real, j: nat)
    requires forall i :: 0 <= i < |encs| ==> IsEncounter(encs[i])
    requires MarkerRegistrations(picked, DistinctMarkers(encs), Grouped(encs, freeSlots, n, areaRef, density), [areaRef])
    requires j < |picked|
    ensures |picked| <= |DistinctMarkers(encs)|
    ensures forall a, b :: 0 <= a < b < |picked| ==> picked[a].markerRef != picked[b].markerRef
    ensures var q := picked[j];
      var m := q.markerRef;
      && freeSlots(n, m, areaRef) != 0
      && q == NewRequest(m, q.objectProto, EncounterCount(freeSlots(n, m, areaRef), density(m)), [areaRef], [], Invalid)
      && exists i :: 0 <= i < |encs| && MarkerOf(encs[i]) == m && encs[i].target == PopObject(q.objectProto)
  {
    var keys := DistinctMarkers(encs);
    var g := Grouped(encs, freeSlots, n, areaRef, density);
    MarkerRegistrationsLength(picked, keys, g, [areaRef]);
    DistinctMarkersNoDup(encs);
    MarkerRegistrationsDistinct(picked, keys, g, [areaRef]);
    MarkerRegistrationAt(picked, keys, g, [areaRef], j);
    var q := picked[j];
    var m := q.markerRef;
    var cands := CandidatesFor(encs, m);
    var k :| 0 <= k < |Items(cands)| && Items(cands)[k] == q.objectProto;
    CandidatesForSound(encs, m, cands[k]);
  }

  /** Every type met among the encounters that has free slots gets a request. */
  lemma MarkerPassCovers(encs: seq<Instance>, picked: seq<Request>, freeSlots: (nat, PrototypeId, PrototypeId) -> int,
                         n: nat, areaRef: PrototypeId, density: PrototypeId -> real, i: nat)
    returns (j: nat)
    requires forall i :: 0 <= i < |encs| ==> IsEncounter(encs[i])
    requires MarkerRegistrations(picked, DistinctMarkers(encs), Grouped(encs, freeSlots, n, areaRef, density), [areaRef])
    requires i < |encs| && freeSlots(n, MarkerOf(encs[i]), areaRef) != 0
    ensures j < |picked| && picked[j].markerRef == MarkerOf(encs[i])
  {
    var keys := DistinctMarkers(encs);
    DistinctMarkersMember(encs, MarkerOf(encs[i]));
    var k :| 0 <= k < |keys| && keys[k] == MarkerOf(encs[i]);
    j := MarkerRegistered(picked, keys, Grouped(encs, freeSlots, n, areaRef, density), [areaRef], k);
  }


  // ------------------------------------------------------------------ ambient

  /** The ambient budget: clusters of 60 x 60 that fit in the spawnable area,
      scaled by the cluster density percentage. */
  function InitialDensity(spawnableNavArea: real, clusterDensityPct: real): (r: real)
    ensures r * PopulationClusterSq * 100.0 == spawnableNavArea * clusterDensityPct
    ensures spawnableNavArea > 0.0 && clusterDensityPct > 0.0 ==> r > 0.0
  {
    spawnableNavArea / PopulationClusterSq * (clusterDensityPct / 100.0)
  }

  function SumSizes(drawn: seq<PopObjectProto>): real
  {
    if drawn == [] then 0.0 else SumSizes(drawn[..|drawn| - 1]) + drawn[|drawn| - 1].averageSize
  }

  /** The request one ambient draw registers: no marker, count 1, the area only,
      no cell, no mission. */
  function AmbientRequest(areaRef: PrototypeId, d: PopObjectProto): Request
  {
    NewRequest(Invalid, d, 1, [areaRef], [], Invalid)
  }

  function AmbientRequests(areaRef: PrototypeId, drawn: seq<PopObjectProto>): (r: seq<Request>)
    ensures |r| == |drawn|
    ensures forall i :: 0 <= i < |drawn| ==> r[i] == AmbientRequest(areaRef, drawn[i])
    ensures forall i :: 0 <= i < |drawn| ==>
      && r[i].objectProto == drawn[i] && r[i].markerRef == Invalid && r[i].count == 1
      && r[i].spawnAreas == [areaRef] && r[i].spawnCells == []
      && r[i].missionRef == Invalid && r[i].properties.None?
  {
    if drawn == [] then [] else AmbientRequests(areaRef, drawn[..|drawn| - 1]) + [AmbientRequest(areaRef, drawn[|drawn| - 1])]
  }

  /** The draw rule: every draw is an object of the picker, taken while the
      remaining budget was still positive, and drawing stopped only once the
      budget was used up (or the picker was empty from the start). */
  predicate AmbientDraws(picker: seq<Candidate>, budget: real, drawn: seq<PopObjectProto>)
  {
    && (forall j :: 0 <= j < |drawn| ==> drawn[j] in Items(picker))
    && (forall j :: 0 <= j < |drawn| ==> SumSizes(drawn[..j]) < budget)
    && (picker != [] ==> SumSizes(drawn) >= budget)
  }

  /** The smallest average size among the candidates. */
  ghost function MinSize(cs: seq<Candidate>): (r: real)
    requires cs != []
    ensures forall i :: 0 <= i < |cs| ==> r <= cs[i].item.averageSize
    ensures (forall i :: 0 <= i < |cs| ==> cs[i].item.averageSize > 0.0) ==> r > 0.0
  {
    if |cs| == 1 then cs[0].item.averageSize
    else
      var rest := MinSize(cs[1..]);
      assert forall i :: 1 <= i < |cs| ==> cs[i] == cs[1..][i - 1];
      if cs[0].item.averageSize < rest then cs[0].item.averageSize else rest
  }

  /** A bound on the number of ambient draws: more than `budget / minSize`
      objects of size at least `minSize` overrun the budget. */
  function DrawBound(budget: real, minSize: real): int
    requires minSize > 0.0
  {
    if budget > 0.0 then (budget / minSize).Floor + 1 else 0
  }

  /** Draws of size at least `minSize` that still leave budget are fewer than `DrawBound`. */
  lemma DrawsBounded(drawn: seq<PopObjectProto>, budget: real, minSize: real)
    requires minSize > 0.0
    requires forall j :: 0 <= j < |drawn| ==> minSize <= drawn[j].averageSize
    requires SumSizes(drawn) < budget
    ensures |drawn| < DrawBound(budget, minSize)
  {
    SumSizesLower(drawn, minSize);
    var x := |drawn| as real;
    assert minSize * x == x * minSize;
    BelowQuotient(x, budget, minSize);
    assert x < ((budget / minSize).Floor as real) + 1.0;
  }

  lemma BelowQuotient(a: real, b: real, c: real)
    requires 0.0 < c && a * c < b
    ensures a < b / c
  {
    assert b / c - a == (b - a * c) / c;
  }



  /** The first two parts of the draw rule, which hold after every draw. */
  predicate AmbientPrefix(picker: seq<Candidate>, budget: real, drawn: seq<PopObjectProto>)
  {
    && (forall j :: 0 <= j < |drawn| ==> drawn[j] in Items(picker))
    && (forall j :: 0 <= j < |drawn| ==> SumSizes(drawn[..j]) < budget)
  }

  /** One draw of the ambient loop, taken while budget remains. */
  lemma AmbientStep(picker: seq<Candidate>, budget: real, drawn: seq<PopObjectProto>, k: nat, areaRef: PrototypeId)
    requires k < |picker|
    requires AmbientPrefix(picker, budget, drawn) && SumSizes(drawn) < budget
    ensures var d := drawn + [picker[k].item];
      && AmbientPrefix(picker, budget, d)
      && SumSizes(d) == SumSizes(drawn) + picker[k].item.averageSize
      && AmbientRequests(areaRef, d) == AmbientRequests(areaRef, drawn) + [AmbientRequest(areaRef, picker[k].item)]
  {
    var d := drawn + [picker[k].item];
    assert d[..|drawn|] == drawn;
    assert forall j :: 0 <= j < |drawn| ==> d[..j] == drawn[..j];
    assert Items(picker)[k] == picker[k].item;
  }

  /** No budget, or no candidate, means no ambient draw. */
  lemma AmbientNothing(picker: seq<Candidate>, budget: real, drawn: seq<PopObjectProto>)
    requires AmbientDraws(picker, budget, drawn)
    requires budget <= 0.0 || picker == []
    ensures drawn == []
  {
    assert |drawn| > 0 ==> SumSizes(drawn[..0]) < budget && drawn[0] in Items(picker);
  }

  /** With sizes positive and at most `maxSize`, the draws overshoot the budget by
      less than one object, so their number is bounded by the budget. */
  lemma {:induction false} AmbientOvershoot(picker: seq<Candidate>, budget: real, drawn: seq<PopObjectProto>,
                                            minSize: real, maxSize: real)
    requires AmbientDraws(picker, budget, drawn)
    requires 0.0 < minSize
    requires forall c :: c in picker ==> minSize <= c.item.averageSize <= maxSize
    ensures SumSizes(drawn) < budget + maxSize || drawn == []
    ensures minSize * (|drawn| as real) <= SumSizes(drawn)
  {
    forall j | 0 <= j < |drawn| ensures minSize <= drawn[j].averageSize <= maxSize {
      var k :| 0 <= k < |picker| && Items(picker)[k] == drawn[j];
      assert picker[k] in picker;
    }
    SumSizesLower(drawn, minSize);
    if drawn != [] {
      var n := |drawn| - 1;
      assert SumSizes(drawn[..n]) < budget;
      assert drawn[..n] + [drawn[n]] == drawn;
    }
  }

  lemma {:induction false} SumSizesLower(drawn: seq<PopObjectProto>, minSize: real)
    requires forall j :: 0 <= j < |drawn| ==> minSize <= drawn[j].averageSize
    ensures minSize * (|drawn| as real) <= SumSizes(drawn)
  {
    if drawn != [] {
      var n := |drawn| - 1;
      SumSizesLower(drawn[..n], minSize);
    }
  }

  // ----------------------------------------------------- prototype store facts

  /** `Spawn` returns at once: spawn maps are in use, or there is no theme. */
  predicate SpawnSkipped(pop: PopulationProto)
  {
    pop.spawnMapEnabled || (pop.spawnMapDensityMin > 0.0 && pop.spawnMapDensityMax > 0.0) || pop.themes == []
  }

  /** What `Spawn` needs of a population prototype when it does not return at
      once: its first theme resolves (the C# dereferences it unchecked), and the
      theme's enemies all have a positive average size (so the ambient loop ends). */
  predicate SpawnReady(db: GameDatabase, pop: PopulationProto)
  {
    !SpawnSkipped(pop) ==>
      && pop.themes[0] in db.themes
      && forall i :: 0 <= i < |db.themes[pop.themes[0]].enemies| ==>
           SizedEnemy(db.themes[pop.themes[0]].enemies[i])
  }

  predicate SizedEnemy(inst: Instance)
  {
    inst.target.PopObject? ==> inst.target.proto.averageSize > 0.0
  }

  /** The ambient picker of a ready population only holds objects of positive size. */
  lemma PickerSizesPositive(list: seq<Instance>)
    requires forall i :: 0 <= i < |list| ==> SizedEnemy(list[i])
    ensures forall c :: c in PickerEntries(list) ==> c.item.averageSize > 0.0
  {
    forall c | c in PickerEntries(list) ensures c.item.averageSize > 0.0 {
      PickerEntriesExact(list, c);
    }
  }

  /** The encounters `Spawn` gathers: the global ones, then the theme's. */
  function SpawnEncounters(pop: PopulationProto, theme: ThemeProto): seq<Instance>
  {
    (if pop.globalEncounters.Some? then Contained(pop.globalEncounters.value, 0) else []) +
    (if theme.encounters.Some? then Contained(theme.encounters.value, 0) else [])
  }

  lemma SpawnEncountersAreEncounters(pop: PopulationProto, theme: ThemeProto)
    ensures forall x :: x in SpawnEncounters(pop, theme) ==> IsEncounter(x)
  {
    if pop.globalEncounters.Some? {
      ContainedAreEncounters(pop.globalEncounters.value, 0);
    }
    if theme.encounters.Some? {
      ContainedAreEncounters(theme.encounters.value, 0);
    }
  }
}
