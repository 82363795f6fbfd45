/** The vehicle-position flattener (`parse_vehiclepositions`): exactly one
    row per entity that carries a vehicle position, in entity order, all
    stamped with one snapshot string. */
module VehiclePositions {
  import opened Wrappers
  import opened Feed

  datatype VehiclePositionRow = VehiclePositionRow(
    snapshotUtc: string,
    entityId: string,
    routeId: Option<string>,
    tripId: Option<string>,
    vehicleId: Option<string>,
    latitude: Option<Float32>,
    longitude: Option<Float32>,
    bearing: Option<Float32>,
    speedMps: Option<Float32>)

  /** A float field read from a present position: its value, or 0.0 when unset. */
  function FloatOf(f: Option<Float32>): Option<Float32> {
    Some(f.GetOr(FloatDefault))
  }

  /** The row for the vehicle position `v` of entity `entityId`. */
  function PositionRow(snap: string, entityId: string, v: VehiclePosition): (row: VehiclePositionRow)
    ensures row.snapshotUtc == snap && row.entityId == entityId
    // Trip fields are not normalised: None only when the trip descriptor is absent.
    ensures row.routeId.None? <==> v.trip.None?
    ensures row.tripId.None? <==> v.trip.None?
    ensures v.trip.Some? ==> row.routeId.value == v.trip.value.routeId.GetOr("")
    ensures v.trip.Some? ==> row.tripId.value == v.trip.value.tripId.GetOr("")
    ensures row.vehicleId.None? <==> v.vehicle.None?
    ensures v.vehicle.Some? ==> row.vehicleId.value == v.vehicle.value.id.GetOr("")
    // Without a position all four coordinates are None; with one, none of them is.
    ensures v.position.None? ==>
      row.latitude.None? && row.longitude.None? && row.bearing.None? && row.speedMps.None?
    ensures v.position.Some? ==>
      row.latitude.Some? && row.longitude.Some? && row.bearing.Some? && row.speedMps.Some?
    // Each coordinate of a present position is its value, or the proto2 default 0.0 when unset.
    ensures v.position.Some? && v.position.value.latitude.None? ==> row.latitude.value == FloatDefault
    ensures v.position.Some? && v.position.value.longitude.None? ==> row.longitude.value == FloatDefault
    ensures v.position.Some? && v.position.value.bearing.None? ==> row.bearing.value == FloatDefault
    ensures v.position.Some? && v.position.value.speed.None? ==> row.speedMps.value == FloatDefault
    ensures v.position.Some? && v.position.value.latitude.Some? ==>
      row.latitude.value == v.position.value.latitude.value
    ensures v.position.Some? && v.position.value.longitude.Some? ==>
      row.longitude.value == v.position.value.longitude.value
    ensures v.position.Some? && v.position.value.bearing.Some? ==>
      row.bearing.value == v.position.value.bearing.value
    ensures v.position.Some? && v.position.value.speed.Some? ==>
      row.speedMps.value == v.position.value.speed.value
  {
    var pos := v.position;
    VehiclePositionRow(
      snap,
      entityId,
      if v.trip.Some? then Some(v.trip.value.routeId.GetOr("")) else None,
      if v.trip.Some? then Some(v.trip.value.tripId.GetOr("")) else None,
      if v.vehicle.Some? then Some(v.vehicle.value.id.GetOr("")) else None,
      if pos.Some? then FloatOf(pos.value.latitude) else None,
      if pos.Some? then FloatOf(pos.value.longitude) else None,
      if pos.Some? then FloatOf(pos.value.bearing) else None,
      if pos.Some? then FloatOf(pos.value.speed) else None)
  }

  /** The rows of an entity sequence: those of all but the last entity, then
      one more row when the last entity carries a vehicle position. */
  function VehiclePositionRows(entities: seq<FeedEntity>, snap: string): (rows: seq<VehiclePositionRow>)
    ensures forall r :: r in rows ==> r.snapshotUtc == snap
    decreases |entities|
  {
    if entities == [] then []
    else
      var e := entities[|entities| - 1];
      VehiclePositionRows(entities[..|entities| - 1], snap)
        + (if e.vehicle.Some? then [PositionRow(snap, e.id, e.vehicle.value)] else [])
  }

  /** The number of entities carrying a vehicle position, counted front to back. */
  function VehicleEntityCount(entities: seq<FeedEntity>): nat {
    if entities == [] then 0
    else (if entities[0].vehicle.Some? then 1 else 0) + VehicleEntityCount(entities[1..])
  }

  lemma {:induction false} VehicleEntityCountConcat(a: seq<FeedEntity>, b: seq<FeedEntity>)
    ensures VehicleEntityCount(a + b) == VehicleEntityCount(a) + VehicleEntityCount(b)
    decreases |a|
  {
    if a != [] {
      assert (a + b)[0] == a[0] && (a + b)[1..] == a[1..] + b;
      VehicleEntityCountConcat(a[1..], b);
    } else {
      assert a + b == b;
    }
  }

  /** Flattening distributes over concatenation of entity sequences. */
  lemma {:induction false} VehiclePositionRowsConcat(a: seq<FeedEntity>, b: seq<FeedEntity>, snap: string)
    ensures VehiclePositionRows(a + b, snap) == VehiclePositionRows(a, snap) + VehiclePositionRows(b, snap)
    decreases |b|
  {
    if b == [] {
      assert a + b == a;
    } else {
      var n := |b| - 1;
      var ab := a + b;
      assert ab[..|ab| - 1] == a + b[..n];
      assert ab[|ab| - 1] == b[n];
      VehiclePositionRowsConcat(a, b[..n], snap);
      var ra, rb := VehiclePositionRows(a, snap), VehiclePositionRows(b[..n], snap);
      var last := if b[n].vehicle.Some? then [PositionRow(snap, b[n].id, b[n].vehicle.value)] else [];
      assert VehiclePositionRows(b, snap) == rb + last;
      assert VehiclePositionRows(ab, snap) == (ra + rb) + last;
      ConcatAssoc(ra, rb, last);
    }
  }

  /** Exactly one row per entity with a vehicle position, none for the others. */
  lemma {:induction false} VehiclePositionRowsCount(entities: seq<FeedEntity>, snap: string)
    ensures |VehiclePositionRows(entities, snap)| == VehicleEntityCount(entities)
    decreases |entities|
  {
    if entities != [] {
      var n := |entities| - 1;
      assert entities == entities[..n] + [entities[n]];
      VehiclePositionRowsCount(entities[..n], snap);
      VehicleEntityCountConcat(entities[..n], [entities[n]]);
      assert [entities[n]][1..] == [];
    }
  }

  /** Output order: the row of vehicle entity i follows the rows of the vehicle entities before it. */
  lemma VehiclePositionRowsOrder(entities: seq<FeedEntity>, snap: string, i: int)
    requires 0 <= i < |entities| && entities[i].vehicle.Some?
    ensures VehicleEntityCount(entities[..i]) < |VehiclePositionRows(entities, snap)|
    ensures VehiclePositionRows(entities, snap)[VehicleEntityCount(entities[..i])]
      == PositionRow(snap, entities[i].id, entities[i].vehicle.value)
  {
    var e := entities[i];
    assert entities == entities[..i] + ([e] + entities[i + 1..]);
    VehiclePositionRowsConcat(entities[..i], [e] + entities[i + 1..], snap);
    VehiclePositionRowsConcat([e], entities[i + 1..], snap);
    assert [e][..0] == [];
    assert VehiclePositionRows([e], snap) == [PositionRow(snap, e.id, e.vehicle.value)];
    VehiclePositionRowsCount(entities[..i], snap);
  }

  /** A feed whose entities carry no vehicle position (alerts, trip updates) yields no rows. */
  lemma {:induction false} NoVehiclesNoRows(entities: seq<FeedEntity>, snap: string)
    requires forall e :: e in entities ==> e.vehicle.None?
    ensures VehiclePositionRows(entities, snap) == []
    decreases |entities|
  {
    if entities != [] {
      var n := |entities| - 1;
      assert entities[n] in entities;
      forall e | e in entities[..n] ensures e.vehicle.None? {
        assert e in entities;
      }
      NoVehiclesNoRows(entities[..n], snap);
    }
  }

  /** Flattening the same feed under two snapshots gives the same rows apart from `snapshot_utc`. */
  lemma {:induction false} VehiclePositionRowsSnapshotOnly(entities: seq<FeedEntity>, s1: string, s2: string)
    ensures |VehiclePositionRows(entities, s1)| == |VehiclePositionRows(entities, s2)|
    ensures forall j :: 0 <= j < |VehiclePositionRows(entities, s1)| ==>
      VehiclePositionRows(entities, s1)[j].(snapshotUtc := s2) == VehiclePositionRows(entities, s2)[j]
    decreases |entities|
  {
    if entities != [] {
      var n := |entities| - 1;
      var e := entities[n];
      VehiclePositionRowsSnapshotOnly(entities[..n], s1, s2);
      var p1: seq<VehiclePositionRow> := VehiclePositionRows(entities[..n], s1);
      var p2: seq<VehiclePositionRow> := VehiclePositionRows(entities[..n], s2);
      var q1: seq<VehiclePositionRow> := if e.vehicle.Some? then [PositionRow(s1, e.id, e.vehicle.value)] else [];
      var q2: seq<VehiclePositionRow> := if e.vehicle.Some? then [PositionRow(s2, e.id, e.vehicle.value)] else [];
      forall j | 0 <= j < |p1 + q1| ensures (p1 + q1)[j].(snapshotUtc := s2) == (p2 + q2)[j] {
        if j >= |p1| {
          assert (p1 + q1)[j] == q1[j - |p1|];
          assert (p2 + q2)[j] == q2[j - |p1|];
        }
      }
    }
  }

  /** `parse_vehiclepositions`: decode failure propagates; otherwise one loop
      over the entities appends one row per entity with a vehicle position. */
  method ParseVehiclePositions(payload: Decoded, snap: string) returns (result: Result<seq<VehiclePositionRow>, DecodeError>)
    ensures result.Failure? <==> payload.Failure?
    ensures payload.Failure? ==> result.error == payload.error
    ensures payload.Success? ==> result.value == VehiclePositionRows(payload.value.entities, snap)
  {
    if payload.Failure? {
      return Failure(payload.error);
    }
    var entities := payload.value.entities;
    var rows: seq<VehiclePositionRow> := [];
    for i := 0 to |entities|
      invariant rows == VehiclePositionRows(entities[..i], snap)
    {
      var e := entities[i];
      assert entities[..i + 1][..i] == entities[..i];
      if e.vehicle.None? {
        continue;
      }
      var v := e.vehicle.value;
      var pos := if v.position.Some? then v.position else None;
      rows := rows + [VehiclePositionRow(
        snap,
        e.id,
        if v.trip.Some? then Some(v.trip.value.routeId.GetOr("")) else None,
        if v.trip.Some? then Some(v.trip.value.tripId.GetOr("")) else None,
        if v.vehicle.Some? then Some(v.vehicle.value.id.GetOr("")) else None,
        if pos.Some? then Some(pos.value.latitude.GetOr(FloatDefault)) else None,
        if pos.Some? then Some(pos.value.longitude.GetOr(FloatDefault)) else None,
        if pos.Some? then Some(pos.value.bearing.GetOr(FloatDefault)) else None,
        if pos.Some? then Some(pos.value.speed.GetOr(FloatDefault)) else None)];
    }
    assert entities[..|entities|] == entities;
    return Success(rows);
  }
}
