/** The two collaborators the engine drives but whose code is not part of this
    model: the region's spawn-marker registry and the cluster/entity layer.
    Each is an oracle that records the calls made to it; the registry's answers
    are given by functions of the call history, so any answering behaviour is
    covered. */
module SpawnMarkers {
  import opened PopulationData

  /** A free marker slot handed out by the registry: where and how to place the group. */
  datatype Reservation = Reservation(regionPosition: Vector3, markerRot: Orientation)

  /** The arguments of one `ReserveFreeReservation` call. */
  datatype ReservationRequest = ReservationRequest(
    markerRef: PrototypeId, cell: CellInfo, spawnAreas: seq<PrototypeId>, spawnCells: seq<PrototypeId>)

  /** `reservation.Object = ...; reservation.MissionRef = ...` on a granted reservation. */
  datatype Assignment = Assignment(reservation: Reservation, objectProto: PopObjectProto, missionRef: PrototypeId)

  class SpawnMarkerRegistry {
    /** `reserve(n, q)`: the answer to the reservation query `q` after `n` earlier ones. */
    const reserve: (nat, ReservationRequest) -> Option<Reservation>
    /** `freeSlots(n, marker, area)`: `CalcFreeReservation` after `n` reservation queries. */
    const freeSlots: (nat, PrototypeId, PrototypeId) -> int

    var reservationRequests: seq<ReservationRequest>
    var slotQueries: seq<(PrototypeId, PrototypeId)>
    var assignments: seq<Assignment>

    constructor (reserve: (nat, ReservationRequest) -> Option<Reservation>,
                 freeSlots: (nat, PrototypeId, PrototypeId) -> int)
      ensures this.reserve == reserve && this.freeSlots == freeSlots
      ensures reservationRequests == [] && slotQueries == [] && assignments == []
    {
      this.reserve := reserve;
      this.freeSlots := freeSlots;
      reservationRequests, slotQueries, assignments := [], [], [];
    }

    method ReserveFreeReservation(q: ReservationRequest) returns (r: Option<Reservation>)
      modifies this
      ensures r == reserve(|old(reservationRequests)|, q)
      ensures reservationRequests == old(reservationRequests) + [q]
      ensures slotQueries == old(slotQueries) && assignments == old(assignments)
    {
      r := reserve(|reservationRequests|, q);
      reservationRequests := reservationRequests + [q];
    }

    method CalcFreeReservation(markerRef: PrototypeId, areaRef: PrototypeId) returns (slots: int)
      modifies this
      ensures slots == freeSlots(|reservationRequests|, markerRef, areaRef)
      ensures slotQueries == old(slotQueries) + [(markerRef, areaRef)]
      ensures reservationRequests == old(reservationRequests) && assignments == old(assignments)
    {
      slots := freeSlots(|reservationRequests|, markerRef, areaRef);
      slotQueries := slotQueries + [(markerRef, areaRef)];
    }

    method Assign(reservation: Reservation, objectProto: PopObjectProto, missionRef: PrototypeId)
      modifies this
      ensures assignments == old(assignments) + [Assignment(reservation, objectProto, missionRef)]
      ensures reservationRequests == old(reservationRequests) && slotQueries == old(slotQueries)
    {
      assignments := assignments + [Assignment(reservation, objectProto, missionRef)];
    }
  }

  /** What a `ClusterGroup` is built from and placed with before `Spawn()`. */
  datatype ClusterSpawn = ClusterSpawn(
    objectProto: PopObjectProto, properties: Option<PropertyCollection>, spawnFlags: SpawnFlags,
    position: Vector3, orientation: Orientation)

  /** The cluster/entity instantiation layer: records every group it was asked to spawn. */
  class ClusterLayer {
    var spawned: seq<ClusterSpawn>

    constructor ()
      ensures spawned == []
    {
      spawned := [];
    }

    method SpawnGroup(group: ClusterSpawn)
      modifies this
      ensures spawned == old(spawned) + [group]
    {
      spawned := spawned + [group];
    }
  }
}
